/** Streamed text in the conversation store: what a run of delta events leaves in an item
    (ccc_server/codex_conversation.py:167-182, 316-351). */
module DeltaText {
  import opened OrderedDict
  import opened Sequences
  import opened Json
  import opened Clipping
  import opened Conversation
  import opened Eviction
  import opened StoreOps
  import opened StoreInvariant
  import opened EvictionOrder
  import opened HydrateRace
  import opened Provenance
  import opened StoreHistory

  // ---- merging a rewritten item over the stored one ----

  lemma {:induction false} PutInPlace<V>(d: Dict<string, V>, i: nat, v: V)
    requires Distinct(d) && i < |d|
    ensures Put(d, d[i].0, v) == d[..i] + [(d[i].0, v)] + d[i + 1..]
  {
    if i == 0 {
      assert d[..0] + [(d[0].0, v)] + d[1..] == [(d[0].0, v)] + d[1..];
    } else {
      var rest := d[1..];
      assert d[0].0 != d[i].0 && rest[i - 1] == d[i] && Distinct(rest);
      hide Distinct;
      PutInPlace(rest, i - 1, v);
      CutApart(d, i, (d[i].0, v));
    }
  }

  lemma CutApart<T>(d: seq<T>, i: nat, x: T)
    requires 0 < i < |d|
    ensures [d[0]] + (d[1..][..i - 1] + [x] + d[1..][i..]) == d[..i] + [x] + d[i + 1..]
  {
  }

  /** The keys of `a` come first in `b`, in the same order. */
  ghost predicate LeadsKeys<V>(a: Dict<string, V>, b: Dict<string, V>) {
    |a| <= |b| && forall i :: 0 <= i < |a| ==> a[i].0 == b[i].0
  }

  /** `{**a, **b}` is `b` when `b` holds the keys of `a`, first and in order. */
  lemma {:induction false} MergeOver(a: Dict<string, Json>, b: Dict<string, Json>, done: nat)
    requires Distinct(b) && LeadsKeys(a, b) && done <= |b|
    requires done > 0 ==> done <= |a|
    requires forall i :: 0 <= i < done ==> a[i] == b[i]
    ensures Merge(a, b[done..]) == b
    decreases |b| - done
  {
    if done == |b| {
      assert a == b && b[done..] == [];
    } else {
      hide Merge;
      var (k, v) := b[done];
      var next := Put(a, k, v);
      assert b[done..][0] == b[done] && b[done..][1..] == b[done + 1..];
      PutNext(a, b, done);
      hide Put, Distinct;
      MergeOver(next, b, done + 1);
      MergeStep(a, b[done..]);
    }
  }

  /** Writing the entry numbered `done` of `b` brings `a` one entry closer. */
  lemma {:induction false} PutNext(a: Dict<string, Json>, b: Dict<string, Json>, done: nat)
    requires Distinct(b) && LeadsKeys(a, b) && done < |b| && (done > 0 ==> done <= |a|)
    requires forall i :: 0 <= i < done ==> a[i] == b[i]
    ensures var next := Put(a, b[done].0, b[done].1);
      LeadsKeys(next, b) && done + 1 <= |next| && forall i :: 0 <= i < done + 1 ==> next[i] == b[i]
  {
    hide Put;
    var (k, v) := b[done];
    forall i, j | 0 <= i < j < |a| ensures a[i].0 != a[j].0 {
      assert b[i].0 != b[j].0;
    }
    if done < |a| {
      PutInPlace(a, done, v);
    } else {
      GetIndex(a, k);
      PutFresh(a, k, v);
    }
  }

  lemma MergeStep(a: Dict<string, Json>, b: Dict<string, Json>)
    requires b != []
    ensures Merge(a, b) == Merge(Put(a, b[0].0, b[0].1), b[1..])
  {
  }

  lemma MergePut(d: Dict<string, Json>, k: string, v: Json)
    requires Distinct(d)
    ensures Merge(d, Put(d, k, v)) == Put(d, k, v)
  {
    var b := Put(d, k, v);
    PutDistinct(d, k, v);
    PutKeys(d, k, v);
    forall i | 0 <= i < |d| ensures d[i].0 == b[i].0 {
      assert Keys(d)[i] == d[i].0 && Keys(b)[i] == b[i].0;
    }
    assert b[0..] == b;
    MergeOver(d, b, 0);
  }

  // ---- the items in question ----

  /** Fields the store can copy faithfully, naming the item `iid`. */
  ghost predicate Plain(fields: Dict<string, Json>, iid: string) {
    && Distinct(fields) && WellFormedFields(fields) && KeysShortFields(fields)
    && Get(fields, "id") == Some(Str(iid))
  }

  lemma {:induction false} PutWellFormed(d: Dict<string, Json>, k: string, s: string)
    requires WellFormedFields(d)
    ensures WellFormedFields(Put(d, k, Str(s)))
  {
    if d != [] && d[0].0 != k {
      PutWellFormed(d[1..], k, s);
      GetPut(d[1..], k, Str(s), d[0].0);
      assert Put(d, k, Str(s))[1..] == Put(d[1..], k, Str(s));
    } else if d != [] {
      assert Put(d, k, Str(s))[1..] == d[1..];
    } else {
      assert Put(d, k, Str(s))[1..] == [];
    }
  }

  lemma PutPlain(d: Dict<string, Json>, k: string, s: string, iid: string)
    requires Plain(d, iid) && k != "id" && |k| <= MAX_KEY
    ensures Plain(Put(d, k, Str(s)), iid)
  {
    PutDistinct(d, k, Str(s));
    PutWellFormed(d, k, s);
    PutCosts(d, k, Str(s));
    GetPut(d, k, Str(s), "id");
  }

  // ---- one delta ----

  /** A delta event whose text is appended to one field of its item. */
  predicate AppendsText(name: string) {
    && StartsWith(name, "item/") && name != "item/fileChange/patchUpdated"
    && Segment(name[5..]) in DELTA_KINDS && Segment(name[5..]) != "reasoning"
  }

  function TextField(name: string): string {
    if name == "item/commandExecution/outputDelta" || name == "item/fileChange/outputDelta" then "aggregatedOutput"
      else "text"
  }

  predicate IsDelta(p: Json, iid: string, text: string) {
    Or(Lookup(p, "itemId"), Lookup(p, "item_id")) == Str(iid) && Lookup(p, "delta") == Str(text)
  }

  /** The fields an item starts from: those stored, or a new item's. */
  function StartFields(held: Option<Item>, iid: string, name: string): Dict<string, Json>
    requires AppendsText(name)
  {
    if held.Some? then Fields(held.value.value) else [("id", Str(iid)), ("type", Str(Segment(name[5..])))]
  }

  function TextOf(lim: Limits, fields: Dict<string, Json>, name: string): string {
    PyText(lim, Or(Lookup(Obj(fields), TextField(name)), Str("")))
  }

  /** The stored item is an open object with plain fields, or there is none yet. */
  ghost predicate Open(held: Option<Item>, iid: string) {
    held.Some? ==> held.value.value.Obj? && !held.value.complete && Plain(held.value.value.fields, iid)
  }

  lemma StartIsPlain(held: Option<Item>, iid: string, name: string)
    requires Open(held, iid) && AppendsText(name)
    ensures Plain(StartFields(held, iid, name), iid)
  {
    if held.None? {
      var f := StartFields(held, iid, name);
      var kind := Str(Segment(name[5..]));
      assert f[1..] == [("type", kind)] && f[1..][1..] == [];
      assert |"id"| == 2 && |"type"| == 4;
      assert KeysShort(Str(iid)) && WellFormed(Str(iid)) && KeysShort(kind) && WellFormed(kind);
      assert KeysShortFields([]) && WellFormedFields([]);
      assert KeysShortFields(f[1..]) && WellFormedFields(f[1..]);
      var id := "id";
      assert f[1..][0].0 == "type" && |f[1..][0].0| != |id|;
      assert Get(f[1..], id) == Get(f[1..][1..], id) == None;
      assert KeysShortFields(f) && WellFormedFields(f);
      assert f[0].0 != f[1].0;
    }
  }

  /** The fields after text `s` is in place. */
  function WithText(fields: Dict<string, Json>, name: string, s: string): Dict<string, Json> {
    Put(fields, TextField(name), Str(s))
  }

  lemma DeltaBuilds(lim: Limits, held: Option<Item>, iid: string, name: string, p: Json, text: string)
    requires AppendsText(name) && IsDelta(p, iid, text)
    ensures var start := StartFields(held, iid, name);
      DeltaItem(lim, held, iid, name, p) == Some(WithText(start, name, TextOf(lim, start, name) + text))
  {
  }

  /** What storing the built item holds, when its copy is not clipped. */
  lemma NextHolds(lim: Limits, held: Option<Item>, iid: string, name: string, s: string, at: int)
    requires AppendsText(name) && Open(held, iid) && 1 <= |iid| <= 256
    ensures var item := WithText(StartFields(held, iid, name), name, s);
      var next := NextItem(lim, held, item, false, at);
      && next.Some?
      && (!next.value.1 ==> next.value.0.value == Obj(item) && !next.value.0.complete)
  {
    hide Walk, Bounded;
    var start := StartFields(held, iid, name);
    var item := WithText(start, name, s);
    StartIsPlain(held, iid, name);
    PutPlain(start, TextField(name), s, iid);
    if held.Some? {
      MergePut(start, TextField(name), Str(s));
    }
    HonestClipping(lim.textLimit, Obj(item));
  }

  /** The item a delta event builds from what is held. */
  function Built(lim: Limits, held: Option<Item>, iid: string, name: string, text: string): Dict<string, Json>
    requires AppendsText(name)
  {
    var start := StartFields(held, iid, name);
    WithText(start, name, TextOf(lim, start, name) + text)
  }

  /** Whether storing that item cuts it. */
  predicate Cuts(lim: Limits, held: Option<Item>, iid: string, name: string, text: string, at: int)
    requires AppendsText(name)
  {
    var next := NextItem(lim, held, Built(lim, held, iid, name, text), false, at);
    next.Some? && next.value.1
  }

  /** One delta: the item is stored as built, appending its text and changing nothing else, unless storing cuts it. */
  lemma DeltaAppends(lim: Limits, t: Thread, turnId: string, iid: string, name: string, p: Json, text: string, at: int)
    requires AppendsText(name) && IsDelta(p, iid, text) && 1 <= |iid| <= 256
    requires Has(t.turns, turnId) && Open(ItemAtKey(t, turnId, iid), iid)
    ensures var was, after := ItemAtKey(t, turnId, iid), ItemAtKey(Delta(lim, t, turnId, name, p, at), turnId, iid);
      && after.Some?
      && (!Cuts(lim, was, iid, name, text, at) ==>
            !after.value.complete && after.value.value == Obj(Built(lim, was, iid, name, text)))
  {
    hide AppendsText, IsDelta, Has, ItemsOf, Open, StartFields, TextOf, WithText, NextItem, Delta, PutItem, DeltaItem,
      Lookup, Plain;
    var held := ItemAtKey(t, turnId, iid);
    var start := StartFields(held, iid, name);
    var s := TextOf(lim, start, name) + text;
    var item := WithText(start, name, s);
    StartIsPlain(held, iid, name);
    DeltaBuilds(lim, held, iid, name, p, text);
    NextHolds(lim, held, iid, name, s, at);
    NamesItem(start, name, s, iid);
    DeltaIsPut(lim, t, turnId, iid, name, p, text, at, item);
    PutItemHolds(lim, t, turnId, item, false, iid, at);
  }

  lemma DeltaIsPut(lim: Limits, t: Thread, turnId: string, iid: string, name: string, p: Json, text: string, at: int,
                   item: Dict<string, Json>)
    requires AppendsText(name) && IsDelta(p, iid, text) && iid != ""
    requires Open(Get(ItemsOf(t, turnId), iid), iid)
    requires DeltaItem(lim, Get(ItemsOf(t, turnId), iid), iid, name, p) == Some(item)
    ensures Delta(lim, t, turnId, name, p, at) == PutItem(lim, t, turnId, item, false, at)
  {
    hide DeltaItem, PutItem, ItemsOf, Plain;
  }

  /** Storing one item, as the turn and the thread see it. */
  lemma PutItemHolds(lim: Limits, t: Thread, turnId: string, item: Dict<string, Json>, complete: bool, iid: string,
                     at: int)
    requires Has(t.turns, turnId) && Lookup(Obj(item), "id") == Str(iid)
    requires NextItem(lim, Get(ItemsOf(t, turnId), iid), item, complete, at).Some?
    ensures var (entry, clipped) := NextItem(lim, Get(ItemsOf(t, turnId), iid), item, complete, at).value;
      var u := PutItem(lim, t, turnId, item, complete, at);
      && Has(u.turns, turnId) && Get(ItemsOf(u, turnId), iid) == Some(entry)
      && u.truncated == (t.truncated || clipped)
  {
    hide NextItem;
    var turn := Get(t.turns, turnId).value;
    var entry := NextItem(lim, Get(turn.items, iid), item, complete, at).value.0;
    GetPut(turn.items, iid, entry, iid);
    GetPut(t.turns, turnId, turn.(items := Put(turn.items, iid, entry)), turnId);
  }

  lemma NamesItem(fields: Dict<string, Json>, name: string, s: string, iid: string)
    requires Plain(fields, iid)
    ensures Lookup(Obj(WithText(fields, name, s)), "id") == Str(iid)
  {
    GetPut(fields, TextField(name), Str(s), "id");
  }

  // ---- a run of delta events, each followed by its trim ----

  /** A delta of the text of item `iid` in turn `turnId`. */
  predicate Appends(e: Live, turnId: string, iid: string, name: string, text: string) {
    e.name == name && TurnIdOf(e.params) == Str(turnId) && IsDelta(e.params, iid, text)
  }

  ghost predicate AllAppend(events: seq<Live>, turnId: string, iid: string, name: string, texts: seq<string>) {
    |events| == |texts| && forall i :: 0 <= i < |events| ==> Appends(events[i], turnId, iid, name, texts[i])
  }

  function Merged(lim: Limits, t: Thread, e: Live): Thread {
    MergeEvent(lim, t, e.name, e.params, e.clipped, e.at)
  }

  /** No store of the run cuts the item. */
  predicate Uncut(lim: Limits, t: Thread, turnId: string, iid: string, name: string, events: seq<Live>,
                  texts: seq<string>)
    requires AppendsText(name) && |events| == |texts|
    decreases |events|
  {
    events == [] ||
    (&& !Cuts(lim, ItemAtKey(t, turnId, iid), iid, name, texts[0], events[0].at)
     && Uncut(lim, Trim(lim, Merged(lim, t, events[0])), turnId, iid, name, events[1..], texts[1..]))
  }

  /** How many events the run had seen when a trim last evicted the item, if one did. */
  function LastLoss(lim: Limits, t: Thread, turnId: string, iid: string, events: seq<Live>): (n: Option<nat>)
    ensures n.Some? ==> 1 <= n.value <= |events|
    decreases |events|
  {
    if events == [] then None
    else
      var next := Trim(lim, Merged(lim, t, events[0]));
      match LastLoss(lim, next, turnId, iid, events[1..])
      case Some(n) => Some(n + 1)
      case None => if ItemAtKey(next, turnId, iid).None? then Some(1) else None
  }

  /** One event, before its trim. */
  lemma {:induction false} MergedAppends(lim: Limits, t: Thread, turnId: string, iid: string, name: string, e: Live,
                                         text: string)
    requires AppendsText(name) && Appends(e, turnId, iid, name, text) && 1 <= |iid| <= 256 && 1 <= |turnId| <= 256
    requires Open(ItemAtKey(t, turnId, iid), iid)
    ensures var was, after := ItemAtKey(t, turnId, iid), ItemAtKey(Merged(lim, t, e), turnId, iid);
      && after.Some?
      && (!Cuts(lim, was, iid, name, text, e.at) ==>
            !after.value.complete && after.value.value == Obj(Built(lim, was, iid, name, text)))
  {
    hide Open, Cuts, Built, Delta, EventFields, AssignAll, IsDelta, TurnIdOf, OpenTurn, AssignTurn, ItemsOf;
    var u := AssignThread(Flag(t, e.clipped), EventFields(name, e.params), e.at, None);
    SameTurns(t, u, turnId);
    FlagOff(OpenTurn(u, turnId));
    OpenAssignItems(u, turnId, TurnFields(name, e.params), e.at, None, false, turnId);
    var w := AssignTurn(OpenTurn(u, turnId), turnId, TurnFields(name, e.params), e.at, None);
    OpenedHas(u, turnId, TurnFields(name, e.params), e.at);
    NotWholeItems(name);
    DeltaAppends(lim, w, turnId, iid, name, e.params, text, e.at);
  }

  lemma {:induction false} SameTurns(t: Thread, u: Thread, turnId: string)
    requires t.turns == u.turns
    ensures ItemsOf(t, turnId) == ItemsOf(u, turnId)
  {
  }

  lemma {:induction false} SegmentStarts(s: string)
    ensures |Segment(s)| <= |s|
    ensures s != "" && s[0] != '/' ==> Segment(s) != "" && Segment(s)[0] == s[0]
  {
    if s != "" && s[0] != '/' {
      SegmentStarts(s[1..]);
    }
  }

  lemma {:induction false} NotWholeItems(name: string)
    requires AppendsText(name)
    ensures name != "turn/started" && name != "turn/completed" && name != "item/started" && name != "item/completed"
  {
    assert name[..5] == "item/" && name[0] == 'i';
    assert "turn/started"[0] == 't' && "turn/completed"[0] == 't';
    var tail := name[5..];
    var kind := Segment(tail);
    SegmentStarts(tail);
    assert kind[0] == 's' ==> kind !in DELTA_KINDS;
    assert kind[0] == 'c' && |kind| < 16 ==> kind !in DELTA_KINDS by {
      assert |"commandExecution"| == 16;
    }
    assert name == "item/started" ==> tail == "started";
    assert name == "item/completed" ==> tail == "completed" && |"completed"| == 9;
  }

  lemma {:induction false} OpenedHas(t: Thread, turnId: string, fields: Dict<string, Json>, at: int)
    ensures Has(AssignTurn(OpenTurn(t, turnId), turnId, fields, at, None).turns, turnId)
  {
    var blank := Turn([], []);
    GetPut(t.turns, turnId, blank, turnId);
    AssignHas(t.(turns := Put(t.turns, turnId, blank)), turnId, [("id", Str(turnId))], 0);
    hide AssignTurn;
    AssignHas(OpenTurn(t, turnId), turnId, fields, at);
  }

  lemma {:induction false} AssignHas(t: Thread, turnId: string, fields: Dict<string, Json>, at: int)
    requires Has(t.turns, turnId)
    ensures Has(AssignTurn(t, turnId, fields, at, None).turns, turnId)
  {
    hide AssignAll;
    var turn := Get(t.turns, turnId).value;
    var (bytes, meta) := AssignAll(t.bytes, turn.meta, fields, at, None);
    GetPut(t.turns, turnId, turn.(meta := meta), turnId);
  }

  lemma {:induction false} TextAgain(lim: Limits, start: Dict<string, Json>, iid: string, name: string, s: string,
                                     more: string)
    requires Plain(start, iid)
    ensures var held := WithText(start, name, s);
      && TextOf(lim, held, name) == s
      && WithText(held, name, more) == WithText(start, name, more)
      && Plain(held, iid)
  {
    GetPut(start, TextField(name), Str(s), TextField(name));
    PutTwice(start, TextField(name), Str(s), Str(more));
    PutPlain(start, TextField(name), s, iid);
  }

  /** What the run leaves of the item, given its last loss. */
  ghost predicate Conserved(lim: Limits, was: Option<Item>, after: Option<Item>, loss: Option<nat>, iid: string,
                            name: string,
                            texts: seq<string>)
    requires AppendsText(name) && (loss.Some? ==> loss.value <= |texts|)
  {
    match loss
    case None => if texts == [] then after == was else Holds(after, Built(lim, was, iid, name, Concat(texts)))
    case Some(n) => if n == |texts| then after.None? else Holds(after, Built(lim, None, iid, name, Concat(texts[n..])))
  }

  ghost predicate Holds(item: Option<Item>, fields: Dict<string, Json>) {
    item.Some? && item.value.value == Obj(fields) && !item.value.complete
  }

  /** Building on what was built is building once with both texts. */
  lemma {:induction false} BuiltTwice(lim: Limits, was: Option<Item>, mid: Option<Item>, iid: string, name: string,
                                      text: string, more: string)
    requires AppendsText(name) && Open(was, iid) && Holds(mid, Built(lim, was, iid, name, text))
    ensures Open(mid, iid) && Built(lim, mid, iid, name, more) == Built(lim, was, iid, name, text + more)
  {
    hide Plain, TextOf, WithText, AppendsText;
    var start := StartFields(was, iid, name);
    StartIsPlain(was, iid, name);
    var base := TextOf(lim, start, name);
    TextAgain(lim, start, iid, name, base + text, base + text + more);
    Associate(base, text, more);
  }

  /** Streamed text is conserved. When storing cuts nothing, the item holds its earlier text followed by every delta
      of the run, or, if a trim evicted it on the way, the deltas since its last eviction; no other field changes. */
  lemma {:induction false} DeltasConcatenate(lim: Limits, tid: string, t: Thread, turnId: string, iid: string,
                                             name: string,
                                            events: seq<Live>, texts: seq<string>)
    requires ThreadOk(tid, t) && AppendsText(name) && 1 <= |iid| <= 256 && 1 <= |turnId| <= 256
    requires AllAppend(events, turnId, iid, name, texts) && Open(ItemAtKey(t, turnId, iid), iid)
    requires Uncut(lim, t, turnId, iid, name, events, texts)
    ensures Conserved(lim, ItemAtKey(t, turnId, iid), ItemAtKey(Events(lim, t, events), turnId, iid),
                      LastLoss(lim, t, turnId, iid, events), iid, name, texts)
    decreases |events|
  {
    hide ThreadOk, Open, Built, Cuts, Appends, AppendsText, ItemAtKey, Trim, MergeEvent, Trimmed;
    if events != [] {
      var e, rest, was := events[0], texts[1..], ItemAtKey(t, turnId, iid);
      var u := Merged(lim, t, e);
      var v := Trim(lim, u);
      var mid := ItemAtKey(v, turnId, iid);
      MergedAppends(lim, t, turnId, iid, name, e, texts[0]);
      MergeEventOk(lim, tid, t, e.name, e.params, e.clipped, e.at);
      TrimEstablishes(lim, tid, u);
      TrimKeepsOrDrops(lim, tid, u, turnId, iid);
      if mid.Some? {
        BuiltTwice(lim, was, mid, iid, name, texts[0], Concat(rest));
      } else {
        NoneIsOpen(iid);
      }
      DeltasConcatenate(lim, tid, v, turnId, iid, name, events[1..], rest);
      assert Events(lim, t, events) == Events(lim, v, events[1..]);
      ConservedStep(lim, was, mid, ItemAtKey(Events(lim, t, events), turnId, iid),
                    LastLoss(lim, v, turnId, iid, events[1..]), iid, name, texts);
    }
  }

  lemma {:induction false} NoneIsOpen(iid: string)
    ensures Open(None, iid)
  {
  }

  lemma {:induction false} TrimKeepsOrDrops(lim: Limits, tid: string, u: Thread, turnId: string, iid: string)
    requires ThreadOk(tid, u)
    ensures GoneOrSame(ItemAtKey(Trim(lim, u), turnId, iid), ItemAtKey(u, turnId, iid))
  {
    hide Trim, ThreadOk, ItemAtKey, TurnMeta;
    TrimOnlyRemoves(lim, tid, u);
  }

  lemma {:induction false} ConservedStep(lim: Limits, was: Option<Item>, mid: Option<Item>, after: Option<Item>,
                                         later: Option<nat>,
                                        iid: string, name: string, texts: seq<string>)
    requires AppendsText(name) && texts != [] && (later.Some? ==> 1 <= later.value <= |texts| - 1)
    requires Conserved(lim, mid, after, later, iid, name, texts[1..])
    requires mid.None? ||
      (&& Holds(mid, Built(lim, was, iid, name, texts[0]))
       && Built(lim, mid, iid, name, Concat(texts[1..])) == Built(lim, was, iid, name, texts[0] + Concat(texts[1..])))
    ensures Conserved(lim, was, after, if later.Some? then Some(later.value + 1) else if mid.None? then Some(1)
      else None,
                      iid, name, texts)
  {
    hide Built, AppendsText;
    assert later.Some? ==> texts[1..][later.value..] == texts[later.value + 1..];
    if texts[1..] == [] {
      assert Concat(texts) == texts[0] + Concat(texts[1..]) && texts[0] + "" == texts[0];
    }
  }
}
