/** Runs in which a snapshot undoes newer work, computed call by call from the empty store
    (ccc_server/codex_conversation.py:125-230): why the exact condition in `SnapshotTrims` is not idle. */
module LateReadRun {
  import opened OrderedDict
  import opened Sequences
  import opened Json
  import opened Clipping
  import opened Conversation
  import opened Eviction
  import opened StoreOps
  import opened StoreInvariant
  import opened Provenance
  import opened StoreHistory
  import opened SnapshotTrims
  import opened LateCalls

  // ---- the calls ----

  function Named(id: string): Json {
    Obj([("id", Str(id))])
  }

  function Letters(n: nat): (s: string)
    ensures |s| == n
  {
    if n == 0 then "" else "x" + Letters(n - 1)
  }

  /** The id of the item that event `k + 1` completes: "i", "ix", "ixx", and so on. */
  function Id(k: nat): (s: string)
    ensures |s| == k + 1
  {
    "i" + Letters(k)
  }

  function Text(k: nat, s: string): Json {
    Obj([("id", Str(Id(k))), ("text", Str(s))])
  }

  function Completion(k: nat, s: string): Json {
    Obj([("threadId", Str("t")), ("turnId", Str("q")), ("item", Text(k, s))])
  }

  function Row(id: string, items: seq<Json>): Json {
    Obj([("id", Str(id)), ("items", Arr(items))])
  }

  /** A read of the thread from before the first completion: turn "p", then turn "q" still holding item "i". */
  function EarlyRead(): Json {
    Obj([("id", Str("t")), ("turns", Arr([Row("p", []), Row("q", [Named("i")])]))])
  }

  /** The items completed in turn, at events 1, 2 and so on. */
  function Done(texts: seq<string>): (items: Dict<string, Item>)
    ensures |items| == |texts|
    ensures forall k :: 0 <= k < |texts| ==>
      items[k] == (Id(k), Item(Text(k, texts[k]), true, ItemSize(Text(k, texts[k])), k + 1))
  {
    if texts == [] then []
    else
      var n := |texts| - 1;
      Done(texts[..n]) + [(Id(n), Item(Text(n, texts[n]), true, ItemSize(Text(n, texts[n])), n + 1))]
  }

  function Total(texts: seq<string>): nat {
    if texts == [] then 0 else Total(texts[..|texts| - 1]) + ItemSize(Text(|texts| - 1, texts[|texts| - 1]))
  }

  predicate Storable(lim: Limits, texts: seq<string>) {
    && |texts| <= lim.textLimit && |texts| <= 255
    && forall k :: 0 <= k < |texts| ==> |texts[k]| <= lim.textLimit && Utf8Len(texts[k]) <= 200000
  }

  /** The 214 bytes of the thread and its turn, plus the items, fit; the 75 bytes of a second turn do not. */
  ghost predicate Tight(lim: Limits, texts: seq<string>) {
    && LimitsOk(lim) && lim.maxTurns >= 2 && 1 <= |texts| <= lim.maxItems && Storable(lim, texts)
    && 214 + Total(texts) <= lim.threadBytes < 289 + Total(texts) && ItemSize(Text(0, texts[0])) >= 150
  }

  // ---- copies that clip nothing ----

  lemma {:induction false} CopyNamed(limit: nat, id: string)
    requires limit >= 1 && |id| == 1
    ensures Bounded(limit, Named(id)) == (Named(id), false)
  {
    var f: Dict<string, Json> := [("id", Str(id))];
    var b := Budget(CHAR_BUDGET, NODE_BUDGET - 1, false);
    assert f[1..] == [] && Put([], "id", Str(id)) == f && |"id"| == 2;
    assert id[1..] == "" && Utf8Len(id) <= 4;
    assert Walk(limit, Str(id), 1, b) == (Str(id), b.(chars := b.chars - Utf8Len(id), nodes := b.nodes - 1));
    FieldsStep(limit, f, 0, 0, b, []);
    assert f[0..] == f;
  }

  lemma {:induction false} LettersWidth(n: nat)
    ensures Utf8Len(Letters(n)) == n && EscapedLen(Letters(n)) == n
  {
    if n > 0 {
      LettersWidth(n - 1);
      assert Letters(n)[0] == 'x' && Letters(n)[1..] == Letters(n - 1);
    }
  }

  lemma {:induction false} IdWidth(k: nat)
    ensures Utf8Len(Id(k)) == k + 1 && EscapedLen(Id(k)) == k + 1
  {
    LettersWidth(k);
    assert Id(k)[0] == 'i' && Id(k)[1..] == Letters(k);
  }

  lemma {:induction false} WalkString(limit: nat, x: string, depth: nat, b: Budget)
    requires |x| <= limit && |x| <= b.chars && b.chars > 0 && b.nodes > 1 && depth <= MAX_DEPTH
    ensures Walk(limit, Str(x), depth, b) == (Str(x), b.(chars := b.chars - Utf8Len(x), nodes := b.nodes - 1))
  {
    hide Utf8Len;
  }

  /** Two short fields copied one after the other. */
  lemma {:induction false} WalkTwo(limit: nat, f: Dict<string, Json>, depth: nat, b: Budget, b1: Budget, b2: Budget)
    requires |f| == 2 && f[0].0 != f[1].0 && |f[0].0| <= MAX_KEY && |f[1].0| <= MAX_KEY
    requires Walk(limit, f[0].1, depth + 1, b) == (f[0].1, b1) && Walk(limit, f[1].1, depth + 1, b1) == (f[1].1, b2)
    ensures WalkFields(limit, f, depth, b, []) == (f, b2)
  {
    hide Walk, Put;
    var one := [f[0]];
    GetIndex(one, f[1].0);
    PutFresh<string, Json>([], f[0].0, f[0].1);
    PutFresh(one, f[1].0, f[1].1);
    assert [] + [f[0]] == one && one + [f[1]] == f;
    FieldsStep(limit, f, 0, depth, b, []);
    FieldsStep(limit, f, 1, depth, b1, one);
    assert f[0..] == f && f[2..] == [];
  }

  lemma {:induction false} WalkText(limit: nat, k: nat, s: string, depth: nat, b: Budget)
    requires k < limit && |s| <= limit && depth <= 1 && b.chars > k + 1 + |s| && b.nodes > 3
    ensures Walk(limit, Text(k, s), depth, b)
         == (Text(k, s), b.(chars := b.chars - k - 1 - Utf8Len(s), nodes := b.nodes - 3))
  {
    hide Id, WalkFields, Utf8Len;
    var f := Text(k, s).fields;
    var b1 := b.(nodes := b.nodes - 1);
    var b2 := b1.(chars := b.chars - k - 1, nodes := b.nodes - 2);
    var b3 := b2.(chars := b.chars - k - 1 - Utf8Len(s), nodes := b.nodes - 3);
    IdWidth(k);
    var id, text := "id", "text";
    assert |id| == 2 && |text| == 4;
    WalkString(limit, Id(k), depth + 1, b1);
    WalkString(limit, s, depth + 1, b2);
    WalkTwo(limit, f, depth, b1, b2, b3);
  }

  lemma Get2<V>(k0: string, v0: V, k1: string, v1: V, k: string)
    ensures Get([(k0, v0), (k1, v1)], k) == if k == k0 then Some(v0) else if k == k1 then Some(v1) else None
  {
    var d := [(k0, v0), (k1, v1)];
    var rest := d[1..];
    assert rest == [(k1, v1)] && rest[1..] == [];
    assert Get(rest[1..], k) == None;
    assert Get(rest, k) == if k == k1 then Some(v1) else None;
  }

  lemma Get3<V>(k0: string, v0: V, k1: string, v1: V, k2: string, v2: V, k: string)
    ensures Get([(k0, v0), (k1, v1), (k2, v2)], k) == if k == k0 then Some(v0) else if k == k1 then Some(v1)
      else if k == k2 then Some(v2) else None
  {
    var d := [(k0, v0), (k1, v1), (k2, v2)];
    assert d[1..] == [(k1, v1), (k2, v2)];
    Get2(k1, v1, k2, v2, k);
  }

  lemma {:induction false} ReadsCompletion(k: nat, s: string)
    ensures var p := Completion(k, s);
      && ThreadIdOf(p) == Str("t") && TurnIdOf(p) == Str("q") && Lookup(p, "item") == Text(k, s)
         && ThreadData(p) == Obj([])
    ensures Lookup(Text(k, s), "id") == Str(Id(k))
  {
    var a, b, c, d, e := "threadId", "turnId", "item", "thread", "id";
    assert |a| == 8 && |b| == 6 && |c| == 4 && |d| == 6 && |e| == 2 && b[1] != d[1];
    Get3(a, Str("t"), b, Str("q"), c, Text(k, s), a);
    Get3(a, Str("t"), b, Str("q"), c, Text(k, s), b);
    Get3(a, Str("t"), b, Str("q"), c, Text(k, s), c);
    Get3(a, Str("t"), b, Str("q"), c, Text(k, s), d);
    Get2(e, Str(Id(k)), "text", Str(s), e);
  }

  lemma {:induction false} CopyText(limit: nat, k: nat, s: string)
    requires k < limit && k < 255 && |s| <= limit && Utf8Len(s) <= 200000
    ensures Bounded(limit, Text(k, s)) == (Text(k, s), false)
  {
    hide Walk;
    WalkText(limit, k, s, 0, Budget(CHAR_BUDGET, NODE_BUDGET, false));
  }

  lemma {:induction false} WalkLetter(limit: nat, x: string, b: Budget)
    requires limit >= 1 && |x| == 1 && 'a' <= x[0] <= 'z' && b.chars > 1 && b.nodes > 1
    ensures Walk(limit, Str(x), 1, b) == (Str(x), b.(chars := b.chars - 1, nodes := b.nodes - 1))
  {
    assert x[1..] == "" && Utf8Len(x) == 1;
  }

  /** Three short fields copied one after another. */
  lemma {:induction false} WalkThree(limit: nat, f: Dict<string, Json>, b: Budget, b1: Budget, b2: Budget, b3: Budget)
    requires |f| == 3 && Distinct(f) && |f[0].0| <= MAX_KEY && |f[1].0| <= MAX_KEY && |f[2].0| <= MAX_KEY
    requires Walk(limit, f[0].1, 1, b) == (f[0].1, b1) && Walk(limit, f[1].1, 1, b1) == (f[1].1, b2)
      && Walk(limit, f[2].1, 1, b2) == (f[2].1, b3)
    ensures WalkFields(limit, f, 0, b, []) == (f, b3)
  {
    hide Walk, WalkFields, Put;
    var one, two := [f[0]], [f[0], f[1]];
    GetIndex(one, f[1].0);
    GetIndex(two, f[2].0);
    PutFresh<string, Json>([], f[0].0, f[0].1);
    PutFresh(one, f[1].0, f[1].1);
    PutFresh(two, f[2].0, f[2].1);
    assert [] + [f[0]] == one && one + [f[1]] == two && two + [f[2]] == f;
    FieldsStep(limit, f, 0, 0, b, []);
    FieldsStep(limit, f, 1, 0, b1, one);
    FieldsStep(limit, f, 2, 0, b2, two);
    assert f[0..] == f && f[3..] == [];
    NoFields(limit, b3, f);
  }

  lemma BoundedFields(limit: nat, f: Dict<string, Json>)
    requires |f| <= MAX_WIDTH
    ensures var (r, e) := WalkFields(limit, f, 0, Budget(CHAR_BUDGET, NODE_BUDGET - 1, false), []);
      Bounded(limit, Obj(f)) == (Obj(r), e.clipped)
  {
    hide WalkFields;
  }

  lemma {:induction false} CompletionFields(k: nat, s: string) returns (f: Dict<string, Json>)
    ensures Completion(k, s) == Obj(f)
    ensures |f| == 3 && Distinct(f) && f[0].1 == Str("t") && f[1].1 == Str("q") && f[2].1 == Text(k, s)
      && |f[0].0| == 8 && |f[1].0| == 6 && |f[2].0| == 4
  {
    hide Text;
    f := Completion(k, s).fields;
    var a, b, c := "threadId", "turnId", "item";
    assert |a| == 8 && |b| == 6 && |c| == 4;
  }

  lemma {:induction false} CopyCompletion(limit: nat, k: nat, s: string)
    requires k < limit && k < 255 && |s| <= limit && Utf8Len(s) <= 200000
    ensures Bounded(limit, Completion(k, s)) == (Completion(k, s), false)
  {
    assert CHAR_BUDGET == 262144 && NODE_BUDGET == 4096;
    hide *;
    var b := Budget(CHAR_BUDGET, NODE_BUDGET - 1, false);
    var b1 := Budget(CHAR_BUDGET - 1, NODE_BUDGET - 2, false);
    var b2 := Budget(CHAR_BUDGET - 2, NODE_BUDGET - 3, false);
    var f := CompletionFields(k, s);
    BoundedFields(limit, f);
    WalkLetter(limit, "t", b);
    WalkLetter(limit, "q", b1);
    WalkText(limit, k, s, 1, b2);
    WalkThree(limit, f, b, b1, b2, Budget(CHAR_BUDGET - 3 - k - Utf8Len(s), NODE_BUDGET - 6, false));
  }

  lemma NoFields(limit: nat, b: Budget, acc: Dict<string, Json>)
    ensures WalkFields(limit, [], 0, b, acc) == (acc, b)
  {
  }

  // ---- the states of the run ----

  function IdMeta(x: string): Dict<string, Meta> {
    [("id", Meta(Str(x), 0, 75))]
  }

  function AfterCompletions(texts: seq<string>): Thread {
    Thread(IdMeta("t"), [("q", Turn(IdMeta("q"), Done(texts)))], false, 214 + Total(texts))
  }

  lemma {:induction false} NamedSize(x: string)
    requires |x| == 1 && 'a' <= x[0] <= 'z'
    ensures MetaSize("id", Str(x)) == 75 && DumpLen(Named(x)) == 11 && ItemSize(Named(x)) == 75
  {
    var f: Dict<string, Json> := [("id", Str(x))];
    assert f[1..] == [] && x[1..] == "" && EscapedLen(x) == 1;
    assert "id"[1..] == "d" && "d"[1..] == "" && EscapedLen("id") == 2;
    assert DumpFieldsLen(f) == 9;
  }

  /** A new turn of one letter costs 75 bytes. */
  lemma {:induction false} OpensTurn(t: Thread, x: string)
    requires |x| == 1 && 'a' <= x[0] <= 'z' && !Has(t.turns, x)
    ensures OpenTurn(t, x) == t.(bytes := t.bytes + 75, turns := t.turns + [(x, Turn(IdMeta(x), []))])
  {
    NamedSize(x);
    var blank := Turn([], []);
    GetPut(t.turns, x, blank, x);
    FreshIdentity(t.bytes, x);
    PutTwice(t.turns, x, blank, Turn(IdMeta(x), []));
    PutFresh(t.turns, x, Turn(IdMeta(x), []));
  }

  /** The thread as the next completion finds it. */
  function Before(texts: seq<string>): Thread {
    if texts == [] then NewThread("t") else AfterCompletions(texts)
  }

  lemma {:induction false} OpensBefore(texts: seq<string>)
    ensures OpenTurn(Before(texts), "q") == AfterCompletions(texts)
  {
    if texts == [] {
      hide MetaSize;
      NamedSize("t");
      FreshIdentity(64, "t");
      assert NewThread("t") == Thread(IdMeta("t"), [], false, 139);
      OpensTurn(NewThread("t"), "q");
      var none: Dict<string, Turn> := [];
      assert none + [("q", Turn(IdMeta("q"), []))] == [("q", Turn(IdMeta("q"), []))];
    }
  }

  lemma {:induction false} NotDone(texts: seq<string>)
    ensures !Has(Done(texts), Id(|texts|))
  {
    hide Id, Done;
    GetIndex(Done(texts), Id(|texts|));
  }

  lemma {:induction false} MergesCompletion(lim: Limits, texts: seq<string>, s: string)
    requires Storable(lim, texts + [s])
    ensures MergeEvent(lim, Before(texts), "item/completed", Completion(|texts|, s), false, |texts| + 1)
      == AfterCompletions(texts + [s])
  {
    hide Bounded, Merge, ItemSize, ThreadIdOf, TurnIdOf, ThreadData, OpenTurn, Before, Done, Total, Id, Text,
      EventFields, TurnFields, TurnItems;
    var n := |texts|;
    assert (texts + [s])[n] == s;
    ReadsCompletion(n, s);
    OnlyCompletes(n, s);
    OpensBefore(texts);
    StoresNext(lim, texts, s);
  }

  lemma {:induction false} StoresNext(lim: Limits, texts: seq<string>, s: string)
    requires Storable(lim, texts + [s])
    ensures PutItem(lim, AfterCompletions(texts), "q", Text(|texts|, s).fields, true, |texts| + 1)
      == AfterCompletions(texts + [s])
  {
    hide Bounded, ItemSize, Id, Done;
    var n := |texts|;
    assert (texts + [s])[n] == s && (texts + [s])[..n] == texts;
    ReadsCompletion(n, s);
    CopyText(lim.textLimit, n, s);
    NotDone(texts);
    var entry := Item(Text(n, s), true, ItemSize(Text(n, s)), n + 1);
    PutFresh(Done(texts), Id(n), entry);
    assert Done(texts + [s]) == Done(texts) + [(Id(n), entry)];
  }

  lemma {:induction false} OnlyCompletes(k: nat, s: string)
    ensures EventFields("item/completed", Completion(k, s)) == []
      && TurnFields("item/completed", Completion(k, s)) == []
    ensures forall lim, t, at ::
      TurnItems(lim, t, "q", "item/completed", Completion(k, s), at)
        == PutItem(lim, t, "q", Text(k, s).fields, true, at)
  {
    hide PutItem, PutItems, Delta, ThreadData, TurnData, Completion, Text;
    ReadsCompletion(k, s);
    NotOtherNames();
  }

  lemma NotOtherNames()
    ensures var name := "item/completed";
      && name != "thread/status/changed" && name != "thread/tokenUsage/updated" && name != "thread/name/updated"
      && name != "thread/archived" && name != "thread/unarchived" && name != "thread/deleted"
         && name != "thread/reverted"
      && !StartsWith(name, "thread/goal/")
      && name != "turn/started" && name != "turn/completed" && name != "turn/plan/updated"
         && name != "turn/diff/updated"
  {
    var name := "item/completed";
    assert name[0] == 'i';
    assert "thread/status/changed"[0] == 't' && "thread/tokenUsage/updated"[0] == 't'
      && "thread/name/updated"[0] == 't';
    assert "thread/archived"[0] == 't' && "thread/unarchived"[0] == 't' && "thread/deleted"[0] == 't'
      && "thread/reverted"[0] == 't';
    var goal := "thread/goal/";
    assert goal[0] == 't' && name[..|goal|][0] == 'i';
    assert "turn/started"[0] == 't' && "turn/completed"[0] == 't' && "turn/plan/updated"[0] == 't'
      && "turn/diff/updated"[0] == 't';
  }

  /** Two turns within the item cap are within every cap. */
  lemma {:induction false} SmallFits(lim: Limits, t: Thread)
    requires LimitsOk(lim) && lim.maxTurns >= 2 && |t.turns| <= 2
    requires forall i :: 0 <= i < |t.turns| ==> |t.turns[i].1.items| <= lim.maxItems
    ensures WithinCaps(lim, t) && (t.bytes <= lim.threadBytes ==> Fits(lim, t))
    ensures Capped(lim, t) == t
  {
    forall k ensures |ItemsOf(t, k)| <= lim.maxItems {
      GetIndex(t.turns, k);
    }
    CapAllIdle(t, Keys(t.turns), lim.maxItems);
  }

  // ---- the completions ----

  function Calls(texts: seq<string>): (ops: seq<Op>)
    ensures |ops| == |texts|
  {
    if texts == [] then []
    else Calls(texts[..|texts| - 1]) + [OpRecord("item/completed", Completion(|texts| - 1, texts[|texts| - 1]))]
  }

  /** What the store holds of the thread. */
  ghost predicate HoldsDone(lim: Limits, store: Store, texts: seq<string>) {
    && StoreOk(lim, store) && store.at == |texts| && store.generation == ""
    && if texts == [] then store.threads == [] else Get(store.threads, "t") == Some(AfterCompletions(texts))
  }

  lemma {:induction false} RecordsNext(lim: Limits, store: Store, texts: seq<string>, s: string)
    requires LimitsOk(lim) && lim.maxTurns >= 2 && |texts| < lim.maxItems && Storable(lim, texts + [s])
    requires 214 + Total(texts + [s]) <= lim.threadBytes && HoldsDone(lim, store, texts)
    ensures HoldsDone(lim, Apply(lim, store, OpRecord("item/completed", Completion(|texts|, s))), texts + [s])
  {
    hide Bounded, ThreadIdOf, MergeEvent, Trim, NewThread, Apply, Total, Done, Completion, Storable, Id, Text,
      StoreOk, Deleted,
      AfterCompletions;
    var n := |texts|;
    var op := OpRecord("item/completed", Completion(n, s));
    LastStorable(lim, texts, s);
    NotOtherNames();
    assert |op.name| == 14;
    CopyCompletion(lim.textLimit, n, s);
    ReadsCompletion(n, s);
    MergesCompletion(lim, texts, s);
    StaysAsIs(lim, texts + [s]);
    NotDeleted(texts);
    RecordsRoomy(lim, store, op, "t");
    ApplyOk(lim, store, op);
  }

  lemma {:induction false} StaysAsIs(lim: Limits, texts: seq<string>)
    requires LimitsOk(lim) && lim.maxTurns >= 2 && |texts| <= lim.maxItems && 214 + Total(texts) <= lim.threadBytes
    ensures Trim(lim, AfterCompletions(texts)) == AfterCompletions(texts)
  {
    hide Trim, Total, Done;
    SmallFits(lim, AfterCompletions(texts));
    TrimIdle(lim, AfterCompletions(texts));
  }

  lemma LastStorable(lim: Limits, texts: seq<string>, s: string)
    requires Storable(lim, texts + [s])
    ensures |texts| < lim.textLimit && |texts| < 255 && |s| <= lim.textLimit && Utf8Len(s) <= 200000
      && Storable(lim, texts)
  {
    var all := texts + [s];
    assert all[|texts|] == s;
    forall k | 0 <= k < |texts| ensures |texts[k]| <= lim.textLimit && Utf8Len(texts[k]) <= 200000 {
      assert all[k] == texts[k];
    }
  }

  lemma NotDeleted(texts: seq<string>)
    ensures !Deleted(AfterCompletions(texts))
  {
    hide Done, Total;
    assert IdMeta("t")[1..] == [] && |"id"| == 2 && |"deleted"| == 7;
  }

  lemma {:induction false} RunsCompletions(lim: Limits, texts: seq<string>)
    requires LimitsOk(lim) && lim.maxTurns >= 2 && |texts| <= lim.maxItems && Storable(lim, texts)
      && 214 + Total(texts) <= lim.threadBytes
    ensures HoldsDone(lim, Run(lim, Calls(texts)), texts) && TimelyRun(lim, Calls(texts))
  {
    hide Apply, Storable, Completion, HoldsDone;
    if texts == [] {
      NothingYet(lim);
    } else {
      var n := |texts| - 1;
      var before, ops := texts[..n], Calls(texts);
      assert texts == before + [texts[n]] && ops[..n] == Calls(before);
      LastStorable(lim, before, texts[n]);
      RunsCompletions(lim, before);
      RecordsNext(lim, Run(lim, Calls(before)), before, texts[n]);
    }
  }

  lemma NothingYet(lim: Limits)
    ensures HoldsDone(lim, EMPTY, [])
  {
  }

  // ---- the read ----

  lemma {:induction false} PutSame<V>(d: Dict<string, V>, k: string)
    requires Has(d, k)
    ensures Put(d, k, Get(d, k).value) == d
  {
    if d[0].0 != k {
      PutSame(d[1..], k);
      assert d == [d[0]] + d[1..];
    } else {
      assert d == [d[0]] + d[1..];
    }
  }

  /** Assigning the identity an entry already has changes nothing. */
  lemma {:induction false} SameIdentity(x: string, bytes: int)
    requires |x| == 1 && 'a' <= x[0] <= 'z'
    ensures AssignAll(bytes, IdMeta(x), [("id", Str(x))], 0, Some(0)) == (bytes, IdMeta(x))
  {
    NamedSize(x);
    var f: Dict<string, Json> := [("id", Str(x))];
    assert f[1..] == [];
    assert Get(IdMeta(x), "id") == Some(Meta(Str(x), 0, 75));
    PutSame(IdMeta(x), "id");
    assert AssignAll(bytes, IdMeta(x), f, 0, Some(0)) == AssignAll(bytes, IdMeta(x), f[1..], 0, Some(0));
  }

  lemma {:induction false} SameTurnIdentity(o: Thread, x: string)
    requires |x| == 1 && 'a' <= x[0] <= 'z' && Has(o.turns, x) && Get(o.turns, x).value.meta == IdMeta(x)
    ensures AssignTurn(o, x, [("id", Str(x))], 0, Some(0)) == o
  {
    hide AssignAll;
    SameIdentity(x, o.bytes);
    PutSame(o.turns, x);
  }

  /** A row that says nothing but its identity and its items. */
  lemma {:induction false} MergesRow(lim: Limits, t: Thread, x: string, items: seq<Json>)
    requires lim.textLimit >= 1 && |x| == 1 && 'a' <= x[0] <= 'z' && |items| <= lim.maxItems
    requires Has(t.turns, x) ==> Get(t.turns, x).value.meta == IdMeta(x)
    ensures NamesTurn(Row(x, items)) && TurnName(Row(x, items)) == x && !SkipsTrim(Row(x, items))
    ensures MergeTurn(lim, t, Row(x, items), 0) == HydrateItems(lim, OpenTurn(t, x), x, items, false, 0)
  {
    hide Bounded, HydrateItems, MetaSize, AssignTurn;
    var raw := Row(x, items);
    RowReads(x, items);
    CopyNamed(lim.textLimit, x);
    var o := OpenTurn(t, x);
    if !Has(t.turns, x) {
      OpensTurn(t, x);
      GetAppend(t.turns, x, Turn(IdMeta(x), []), x);
    }
    SameTurnIdentity(o, x);
  }

  lemma {:induction false} RowReads(x: string, items: seq<Json>)
    ensures var raw := Row(x, items);
      && Lookup(raw, "id") == Str(x) && Or(Lookup(raw, "items"), Arr([])) == Arr(items) && Lookup(raw, "status") == Null
      && Without(raw.fields, "items") == [("id", Str(x))]
  {
    var raw := Row(x, items);
    var id, list, status := "id", "items", "status";
    assert |id| == 2 && |list| == 5 && |status| == 6;
    Get2(id, Str(x), list, Arr(items), id);
    Get2(id, Str(x), list, Arr(items), list);
    Get2(id, Str(x), list, Arr(items), status);
    assert raw.fields[1..] == [(list, Arr(items))] && raw.fields[1..][1..] == [];
    assert Without(raw.fields[1..], list) == [];
  }

  /** The thread after the first row, before and after its trim. */
  function TwoTurns(items: Dict<string, Item>, truncated: bool, bytes: int): Thread {
    Thread(IdMeta("t"), [("q", Turn(IdMeta("q"), items)), ("p", Turn(IdMeta("p"), []))], truncated, bytes)
  }

  lemma LettersDiffer()
    ensures "p" != "q"
  {
    var p, q := "p", "q";
    assert p[0] != q[0];
  }

  lemma {:induction false} SortedIdle(cs: seq<Candidate>)
    requires forall i, j :: 0 <= i < j < |cs| ==> cs[i].at <= cs[j].at
    ensures Sorted(cs) == cs
  {
    if cs != [] {
      SortedIdle(cs[1..]);
      assert cs == [cs[0]] + cs[1..];
    }
  }

  lemma {:induction false} OnlyItems(items: Dict<string, Item>, bytes: int)
    ensures Candidates(TwoTurns(items, false, bytes)) == ItemCandidates("q", items)
  {
    var u := TwoTurns(items, false, bytes);
    var rest := u.turns[1..];
    assert rest == [u.turns[1]];
    assert IdMeta("t")[1..] == [] && IdMeta("q")[1..] == [] && IdMeta("p")[1..] == [];
    assert MetaCandidates(None, IdMeta("t")) == [] && MetaCandidates(Some("q"), IdMeta("q")) == [];
    assert MetaCandidates(Some("p"), IdMeta("p")) == [];
    var none: Dict<string, Turn> := [];
    assert TurnItemCandidates(none) == [] && TurnMetaCandidates(none) == [];
    assert rest[1..] == none && TurnItemCandidates(rest) == [];
    assert TurnMetaCandidates(rest) == MetaCandidates(Some("p"), IdMeta("p")) + TurnMetaCandidates(none);
    assert ItemCandidates("q", items) + [] == ItemCandidates("q", items);
  }

  /** Over the budget, the thread loses its oldest item, and that is enough. */
  lemma {:induction false} TrimEvictsFirst(lim: Limits, texts: seq<string>)
    requires Tight(lim, texts)
    ensures var size := ItemSize(Text(0, texts[0]));
      Trim(lim, TwoTurns(Done(texts), false, 289 + Total(texts)))
        == TwoTurns(Done(texts)[1..], true, 289 + Total(texts) - size)
  {
    hide Capped, Candidates, ItemSize, Total, Id, Done;
    var items, bytes := Done(texts), 289 + Total(texts);
    var u := TwoTurns(items, false, bytes);
    SmallFits(lim, u);
    OnlyItems(items, bytes);
    var cs := ItemCandidates("q", items);
    SortedIdle(cs);
    var first := TwoTurns(items[1..], true, bytes - ItemSize(Text(0, texts[0])));
    assert u.turns[1..] == [u.turns[1]];
    assert Evict(u, cs[0]) == first;
    assert EvictWhileOver(u, cs, lim.threadBytes) == EvictWhileOver(first, cs[1..], lim.threadBytes) == first;
  }

  /** The first row opens a turn that does not fit, and its trim evicts the oldest item. */
  lemma {:induction false} FirstRowEvicts(lim: Limits, texts: seq<string>)
    requires Tight(lim, texts)
    ensures AfterRow(lim, AfterCompletions(texts), Row("p", []), 0)
         == TwoTurns(Done(texts)[1..], true, 289 + Total(texts) - ItemSize(Text(0, texts[0])))
  {
    hide MergeTurn, Trim, ItemSize, Total, Done;
    var t := AfterCompletions(texts);
    LettersDiffer();
    var d := t.turns;
    assert d[0].0 == "q" && d[1..] == [] && Get(d[1..], "p").None?;
    OpensTurn(t, "p");
    MergesRow(lim, t, "p", []);
    assert MergeTurn(lim, t, Row("p", []), 0) == TwoTurns(Done(texts), false, 289 + Total(texts));
    TrimEvictsFirst(lim, texts);
  }

  /** The item as the old snapshot has it. */
  const OLD_ITEM := Item(Named("i"), false, 75, 0)

  function AfterSecond(texts: seq<string>): Thread
    requires texts != []
  {
    TwoTurns(Done(texts)[1..] + [("i", OLD_ITEM)], true, 364 + Total(texts) - ItemSize(Text(0, texts[0])))
  }

  lemma {:induction false} FirstIsGone(texts: seq<string>)
    requires texts != []
    ensures !Has(Done(texts)[1..], "i")
  {
    hide Id, Done;
    GetIndex(Done(texts)[1..], "i");
  }

  /** The second row stores the item again. */
  lemma {:induction false} SecondRowStores(lim: Limits, texts: seq<string>)
    requires Tight(lim, texts)
    ensures AfterRow(lim, TwoTurns(Done(texts)[1..], true, 289 + Total(texts) - ItemSize(Text(0, texts[0]))),
                     Row("q", [Named("i")]), 0)
         == AfterSecond(texts)
  {
    hide MergeTurn, HydrateItem, Bounded, ItemSize, Trim, Done, Total, Text;
    var t := TwoTurns(Done(texts)[1..], true, 289 + Total(texts) - ItemSize(Text(0, texts[0])));
    var i := Named("i");
    MergesRow(lim, t, "q", [i]);
    assert [i][1..] == [];
    StoresOld(lim, Done(texts)[1..], t.bytes, texts);
    assert HydrateItems(lim, t, "q", [i], false, 0) == HydrateItem(lim, t, "q", i, false, 0);
    SmallFits(lim, AfterSecond(texts));
    TrimIdle(lim, AfterSecond(texts));
  }

  lemma {:induction false} StoresOld(lim: Limits, rest: Dict<string, Item>, bytes: int, texts: seq<string>)
    requires lim.textLimit >= 1 && texts != [] && rest == Done(texts)[1..]
    ensures HydrateItem(lim, TwoTurns(rest, true, bytes), "q", Named("i"), false, 0)
         == TwoTurns(rest + [("i", OLD_ITEM)], true, bytes + 75)
  {
    hide Bounded, ItemSize, Done;
    var t, i := TwoTurns(rest, true, bytes), Named("i");
    CopyNamed(lim.textLimit, "i");
    NamedSize("i");
    FirstIsGone(texts);
    PutFresh(rest, "i", OLD_ITEM);
    assert Lookup(i, "id") == Str("i");
    assert t.turns[1..] == [t.turns[1]];
    assert HydrateItem(lim, t, "q", i, false, 0) == PutItem(lim, t, "q", i.fields, false, 0);
  }

  function AfterRead(texts: seq<string>): Thread
    requires texts != []
  {
    var w := AfterSecond(texts); w.(turns := [w.turns[1], w.turns[0]])
  }

  lemma {:induction false} HeadChangesNothing(lim: Limits, texts: seq<string>)
    requires lim.textLimit >= 1
    ensures HydrateHead(lim, AfterCompletions(texts), [("id", Str("t"))], false, 0) == AfterCompletions(texts)
  {
    hide Bounded, ItemSize, AssignAll, Done, Total;
    var t := AfterCompletions(texts);
    CopyNamed(lim.textLimit, "t");
    SameIdentity("t", t.bytes);
    var f: Dict<string, Json> := [("id", Str("t"))];
    assert f[1..] == [] && |"id"| == 2 && |"turns"| == 5 && Without(f, "turns") == f;
  }

  lemma {:induction false} HydratesEarlyRead(lim: Limits, texts: seq<string>)
    requires Tight(lim, texts)
    ensures HydrateThread(lim, AfterCompletions(texts), [("id", Str("t"))], [Row("p", []), Row("q", [Named("i")])], 0)
         == AfterRead(texts)
  {
    hide MergeTurn, ItemSize, Trim, HydrateHead, HydrateTurns, AfterRow, Row, Done, Total, Text, AfterCompletions,
      AfterSecond, AfterRead, HistoryOrder, Reorder, TwoTurns;
    var t := AfterCompletions(texts);
    var first, second := Row("p", []), Row("q", [Named("i")]);
    var rows := [first, second];
    HeadChangesNothing(lim, texts);
    FirstRowEvicts(lim, texts);
    SecondRowStores(lim, texts);
    var u := TwoTurns(Done(texts)[1..], true, 289 + Total(texts) - ItemSize(Text(0, texts[0])));
    assert rows[1..] == [second] && [second][1..] == [];
    OneMoreRow(lim, t, rows);
    OneMoreRow(lim, u, [second]);
    OneMoreRow(lim, AfterSecond(texts), []);
    assert Last(rows, lim.maxTurns) == rows;
    RowsInOrder();
    ReadInOrder(lim, texts);
  }

  lemma {:induction false} RowsInOrder()
    ensures HistoryOrder([Row("p", []), Row("q", [Named("i")])]) == ["p", "q"]
  {
    hide Row, NamesTurn, TurnName;
    var first, second := Row("p", []), Row("q", [Named("i")]);
    var rows := [first, second];
    RowNames("p", []);
    RowNames("q", [Named("i")]);
    assert rows[1..] == [second] && [second][1..] == [];
    assert HistoryOrder([]) == [];
    assert HistoryOrder([second]) == ["q"] + HistoryOrder([]);
    assert HistoryOrder(rows) == ["p"] + HistoryOrder([second]);
  }

  lemma {:induction false} ReadInOrder(lim: Limits, texts: seq<string>)
    requires Tight(lim, texts)
    ensures Reorder(AfterSecond(texts), ["p", "q"]) == AfterRead(texts)
      && Trim(lim, AfterRead(texts)) == AfterRead(texts)
  {
    hide Gather, Trim, ItemSize, Done, Total, Text;
    var w := AfterSecond(texts);
    LettersDiffer();
    SwapsTurns("q", w.turns[0].1, "p", w.turns[1].1);
    SmallFits(lim, AfterRead(texts));
    TrimIdle(lim, AfterRead(texts));
  }

  lemma OneMoreRow(lim: Limits, t: Thread, rows: seq<Json>)
    ensures HydrateTurns(lim, t, rows, 0) == if rows == [] then t
      else HydrateTurns(lim, AfterRow(lim, t, rows[0], 0), rows[1..], 0)
  {
    hide MergeTurn, Trim;
  }

  lemma RowNames(x: string, items: seq<Json>)
    requires 1 <= |x| <= 256
    ensures NamesTurn(Row(x, items)) && TurnName(Row(x, items)) == x
  {
    RowReads(x, items);
  }

  lemma {:induction false} SwapsTurns(a: string, x: Turn, b: string, y: Turn)
    requires a != b
    ensures var turns := [(a, x), (b, y)]; Gather([], [b, a] + Keys(turns), turns) == [(b, y), (a, x)]
  {
    var turns := [(a, x), (b, y)];
    Get2(a, x, b, y, a);
    Get2(a, x, b, y, b);
    assert turns[1..] == [(b, y)] && turns[1..][1..] == [];
    var keys := [b, a] + Keys(turns);
    assert keys == [b, a, a, b];
    assert keys[1..] == [a, a, b] && [a, a, b][1..] == [a, b] && [a, b][1..] == [b] && [b][1..] == [];
    var one, two := [(b, y)], [(b, y), (a, x)];
    assert one[1..] == [] && two[1..] == [(a, x)] && two[1..][1..] == [];
    assert Put([], b, y) == one && Put(one, a, x) == two && Put(two, a, x) == two && Put(two, b, y) == two;
    assert Gather([], keys, turns) == Gather(one, [a, a, b], turns);
    assert Gather(one, [a, a, b], turns) == Gather(two, [a, b], turns);
    assert Gather(two, [a, b], turns) == Gather(two, [b], turns);
    assert Gather(two, [b], turns) == Gather(two, [], turns);
  }

  lemma {:induction false} HydratesStore(lim: Limits, texts: seq<string>, store: Store)
    requires Tight(lim, texts) && HoldsDone(lim, store, texts)
    ensures Get(Apply(lim, store, OpHydrate(EarlyRead(), 0, None)).threads, "t") == Some(AfterRead(texts))
  {
    hide ItemSize, HydrateThread, Apply, AfterCompletions, AfterRead, Total, Text, Storable, StoreOk, Deleted;
    var rows := [Row("p", []), Row("q", [Named("i")])];
    var f := EarlyRead().fields;
    var id, turns := "id", "turns";
    assert |id| == 2 && |turns| == 5;
    Get2(id, Str("t"), turns, Arr(rows), id);
    Get2(id, Str("t"), turns, Arr(rows), turns);
    assert f[1..] == [(turns, Arr(rows))] && f[1..][1..] == [] && Without(f[1..], turns) == [];
    assert Without(f, turns) == [("id", Str("t"))];
    HydratesEarlyRead(lim, texts);
    NotDeleted(texts);
    HydratesRoomy(lim, store, EarlyRead(), 0, None, "t", "t");
  }

  /** Items are completed one by one; then a read from before event 1 is applied. */
  function LateRead(texts: seq<string>): seq<Op> {
    Calls(texts) + [OpHydrate(EarlyRead(), 0, None)]
  }

  /** Its trims let a snapshot undo newer work, in a run from the empty store: the item completed by event 1 ends as
      the old snapshot has it, incomplete, without its text, and with provenance 0 instead of 1. */
  lemma {:induction false} SnapshotUndoesCompletion(lim: Limits, texts: seq<string>)
    requires Tight(lim, texts)
    ensures var n, ops := |texts|, LateRead(texts);
      var t, u := Get(Run(lim, ops[..n]).threads, "t"), Get(Run(lim, ops).threads, "t");
      && TimelyRun(lim, ops) && t.Some? && u.Some?
      && ItemAtKey(t.value, "q", "i") == Some(Item(Text(0, texts[0]), true, ItemSize(Text(0, texts[0])), 1))
      && ItemAtKey(u.value, "q", "i") == Some(OLD_ITEM)
  {
    hide Apply, ItemSize, Total, Storable, Text, AfterSecond, Done, Calls, AfterCompletions, AfterRead, StoreOk;
    var n, ops := |texts|, LateRead(texts);
    assert ops[..n] == Calls(texts) && ops[..|ops| - 1] == Calls(texts);
    RunsCompletions(lim, texts);
    var store := Run(lim, Calls(texts));
    HydratesStore(lim, texts, store);
    assert Run(lim, ops) == Apply(lim, store, ops[n]);
    FirstItems(texts);
  }

  lemma {:induction false} FirstItems(texts: seq<string>)
    requires texts != []
    ensures ItemAtKey(AfterCompletions(texts), "q", "i")
      == Some(Item(Text(0, texts[0]), true, ItemSize(Text(0, texts[0])), 1))
    ensures ItemAtKey(AfterRead(texts), "q", "i") == Some(OLD_ITEM)
  {
    assert Id(0) == "i" by { assert Letters(0) == ""; }
    hide ItemSize, Total, Done, Text, Id;
    assert Done(texts)[0].0 == "i" && Get(Done(texts), "i") == Some(Done(texts)[0].1);
    FirstIsGone(texts);
    GetAppend(Done(texts)[1..], "i", OLD_ITEM, "i");
    LettersDiffer();
    var turns := AfterRead(texts).turns;
    Get2(turns[0].0, turns[0].1, turns[1].0, turns[1].1, "q");
    assert turns == [(turns[0].0, turns[0].1), (turns[1].0, turns[1].1)];
  }

  // ---- such texts exist ----

  lemma KeyWidths()
    ensures EscapedLen("id") == 2 && EscapedLen("text") == 4
  {
    assert "id"[1..] == "d" && "d"[1..] == "";
    assert "text"[1..] == "ext" && "ext"[1..] == "xt" && "xt"[1..] == "t" && "t"[1..] == "";
    assert EscapedLen("xt") == 2 && EscapedLen("ext") == 3;
  }

  lemma {:induction false} TextSize(k: nat, n: nat)
    ensures ItemSize(Text(k, Letters(n))) == 87 + k + n
  {
    LettersWidth(n);
    IdWidth(k);
    KeyWidths();
    hide EscapedLen, Letters, Id;
    var f := Text(k, Letters(n)).fields;
    assert f[1..] == [f[1]] && f[1..][1..] == [];
    assert DumpLen(f[0].1) == 3 + k && DumpLen(f[1].1) == 2 + n;
    assert DumpFieldsLen(f[1..]) == 10 + n;
    assert DumpFieldsLen(f) == 11 + k + 10 + n;
  }

  /** `m` texts of `n` letters each. */
  function Equal(m: nat, n: nat): (texts: seq<string>)
    ensures |texts| == m && forall k :: 0 <= k < m ==> texts[k] == Letters(n)
  {
    if m == 0 then [] else Equal(m - 1, n) + [Letters(n)]
  }

  function EqualSize(m: nat, n: nat): nat {
    if m == 0 then 0 else EqualSize(m - 1, n) + 86 + m + n
  }

  lemma {:induction false} EqualTotal(m: nat, n: nat)
    ensures Total(Equal(m, n)) == EqualSize(m, n)
  {
    hide ItemSize, Text, Letters;
    if m > 0 {
      EqualTotal(m - 1, n);
      TextSize(m - 1, n);
      assert Equal(m, n)[..m - 1] == Equal(m - 1, n);
    }
  }

  lemma {:induction false} EqualSizeIs(m: nat, n: nat)
    ensures 2 * EqualSize(m, n) == m * (173 + m + 2 * n)
  {
    if m > 0 {
      EqualSizeIs(m - 1, n);
      NextSquare(m - 1, 173 + 2 * n);
    }
  }

  lemma NextSquare(k: nat, c: nat)
    ensures (k + 1) * (c + (k + 1)) == k * (c + k) + c + 2 * k + 1
  {
  }

  /** Texts that fill the budget to the byte: `m` of `n` letters and one of `r`. */
  lemma {:induction false} TightTextsExist(lim: Limits, m: nat, n: nat, r: nat)
    requires LimitsOk(lim) && lim.maxTurns >= 2 && m < lim.maxItems && m < lim.textLimit && m < 255
    requires n <= lim.textLimit && n <= 200000 && r <= lim.textLimit && r <= 200000 && (if m > 0 then n else r) >= 63
    requires lim.threadBytes == 214 + EqualSize(m, n) + 87 + m + r
    ensures Tight(lim, Equal(m, n) + [Letters(r)])
  {
    hide ItemSize, Text, Letters;
    var texts := Equal(m, n) + [Letters(r)];
    assert texts[..m] == Equal(m, n);
    EqualTotal(m, n);
    TextSize(m, r);
    TextSize(0, if m > 0 then n else r);
    LettersWidth(n);
    LettersWidth(r);
  }

  /** The limits of the store the program builds. */
  function Defaults(pyStr: Json -> string): Limits {
    Limits(512, 16, 65536, 64, 256, 2 * 1024 * 1024, pyStr)
  }

  /** The run goes wrong with the default limits, and whenever a single text can fill the budget. */
  lemma {:induction false} DefaultsAreTight(pyStr: Json -> string)
    ensures Tight(Defaults(pyStr), Equal(31, 65536) + [Letters(62042)])
  {
    EqualSizeIs(31, 65536);
    TightTextsExist(Defaults(pyStr), 31, 65536, 62042);
  }
}
