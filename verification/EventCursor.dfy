/** The event ring against the full record of events: when `events_since` says no resync is
    needed, a reader gets everything in its scope that was not purged, once and in order
    (ccc_server/codex_conversation.py:243-272, 365-376). */
module EventCursor {
  import opened OrderedDict
  import opened Json
  import opened Clipping
  import opened Conversation
  import opened Eviction
  import opened StoreOps
  import opened StoreInvariant

  /** A store beside what it no longer remembers: every event recorded in this generation, the
      sequence numbers purged with deleted threads, and how far the ring has dropped. */
  datatype Tracked = Tracked(store: Store, log: seq<Event>, purged: set<nat>, floor: nat)

  /** The event a call records, if it records one. */
  function Emitted(lim: Limits, s: Store, op: Op): Option<Event> {
    match op
    case OpRecord(name, params) =>
      if !params.Obj? || !(1 <= |name| <= 256) then None
      else
        var (p, clipped) := Bounded(lim.textLimit, params);
        var tid := ThreadIdOf(p);
        if name == "thread/deleted" && IsId(tid) then Some(DeletedEvent(tid, s.at + 1))
        else if IsTombstone(s.threads, tid) then None
        else Some(Event(s.at + 1, name, p, tid, clipped))
    case _ => None
  }

  /** The thread whose earlier events a call purges, if any. */
  function Purges(lim: Limits, op: Op): Option<Json> {
    match op
    case OpRecord(name, params) =>
      if !params.Obj? then None
      else
        var tid := ThreadIdOf(Bounded(lim.textLimit, params).0);
        if name == "thread/deleted" && IsId(tid) then Some(tid) else None
    case _ => None
  }

  predicate Resets(s: Store, op: Op) {
    op.OpConnect? && 1 <= |op.generation| <= 128 && s.generation != op.generation
  }

  function NumbersOf(log: seq<Event>, tid: Json): set<nat> {
    set e | e in log && e.threadId == tid :: e.at
  }

  /** What the ring still holds when the new event is appended. */
  function KeptEvents(lim: Limits, events: seq<Event>, op: Op): seq<Event> {
    match Purges(lim, op) case None => events case Some(tid) => NotOf(events, tid)
  }

  function PurgedBy(lim: Limits, log: seq<Event>, op: Op): set<nat> {
    match Purges(lim, op) case None => {} case Some(tid) => NumbersOf(log, tid)
  }

  /** Appending to a full ring drops its oldest event. */
  function FloorAfter(lim: Limits, kept: seq<Event>, floor: nat): nat
    requires lim.eventCapacity >= 1
  {
    if |kept| < lim.eventCapacity then floor else kept[|kept| - lim.eventCapacity].at
  }

  function Track(lim: Limits, tr: Tracked, op: Op): Tracked
    requires lim.eventCapacity >= 1
  {
    var next := Apply(lim, tr.store, op);
    if Resets(tr.store, op) then Tracked(next, [], {}, 0)
    else
      match Emitted(lim, tr.store, op)
      case None => tr.(store := next)
      case Some(e) =>
        Tracked(next, tr.log + [e], tr.purged + PurgedBy(lim, tr.log, op),
                FloorAfter(lim, KeptEvents(lim, tr.store.events, op), tr.floor))
  }

  function TrackRun(lim: Limits, ops: seq<Op>): Tracked
    requires lim.eventCapacity >= 1
  {
    if ops == [] then Tracked(EMPTY, [], {}, 0) else Track(lim, TrackRun(lim, ops[..|ops| - 1]), ops[|ops| - 1])
  }

  // ---- filters ----

  function Live(log: seq<Event>, purged: set<nat>): seq<Event> {
    if log == [] then [] else (if log[0].at in purged then [] else [log[0]]) + Live(log[1..], purged)
  }

  function Scoped(log: seq<Event>, scope: string): seq<Event> {
    if log == [] then [] else (if InScope(log[0], scope) then [log[0]] else []) + Scoped(log[1..], scope)
  }

  lemma {:induction false} LiveConcat(a: seq<Event>, b: seq<Event>, purged: set<nat>)
    ensures Live(a + b, purged) == Live(a, purged) + Live(b, purged)
  {
    if a == [] {
      assert a + b == b;
    } else {
      assert (a + b)[1..] == a[1..] + b;
      LiveConcat(a[1..], b, purged);
      var first := if a[0].at in purged then [] else [a[0]];
      assert first + (Live(a[1..], purged) + Live(b, purged)) == (first + Live(a[1..], purged)) + Live(b, purged);
    }
  }

  lemma {:induction false} ScopedConcat(a: seq<Event>, b: seq<Event>, scope: string)
    ensures Scoped(a + b, scope) == Scoped(a, scope) + Scoped(b, scope)
  {
    hide InScope;
    if a == [] {
      assert a + b == b;
    } else {
      assert (a + b)[1..] == a[1..] + b;
      ScopedConcat(a[1..], b, scope);
      var first := if InScope(a[0], scope) then [a[0]] else [];
      assert first + (Scoped(a[1..], scope) + Scoped(b, scope)) == (first + Scoped(a[1..], scope)) + Scoped(b, scope);
    }
  }

  lemma {:induction false} LiveMembers(log: seq<Event>, purged: set<nat>, e: Event)
    ensures e in Live(log, purged) <==> e in log && e.at !in purged
  {
    if log != [] {
      LiveMembers(log[1..], purged, e);
    }
  }

  lemma {:induction false} ScopedMembers(log: seq<Event>, scope: string, e: Event)
    ensures e in Scoped(log, scope) <==> e in log && InScope(e, scope)
  {
    if log != [] {
      ScopedMembers(log[1..], scope, e);
    }
  }

  lemma {:induction false} LivePurge(log: seq<Event>, purged: set<nat>, tid: Json, all: seq<Event>)
    requires forall e :: e in log ==> e in all
    requires forall e, f :: e in all && f in all && e.at == f.at ==> e == f
    ensures NotOf(Live(log, purged), tid) == Live(log, purged + NumbersOf(all, tid))
  {
    if log != [] {
      LivePurge(log[1..], purged, tid, all);
      var e := log[0];
      assert e in all;
      assert e.at in NumbersOf(all, tid) <==> e.threadId == tid;
      var rest := Live(log[1..], purged);
      if e.at !in purged {
        assert Live(log, purged) == [e] + rest;
        assert ([e] + rest)[1..] == rest;
        assert NotOf([e] + rest, tid) == (if e.threadId != tid then [e] else []) + NotOf(rest, tid);
      } else {
        assert Live(log, purged) == [] + rest == rest;
        assert e.at in purged + NumbersOf(all, tid);
      }
    }
  }

  lemma {:induction false} AllAfter(events: seq<Event>, cursor: int, scope: string)
    requires forall e :: e in events ==> e.at > cursor
    ensures After(events, cursor, scope) == Scoped(events, scope)
  {
    if events != [] {
      AllAfter(events[1..], cursor, scope);
    }
  }

  lemma {:induction false} NoneAfter(events: seq<Event>, cursor: int, scope: string)
    requires forall e :: e in events ==> e.at <= cursor
    ensures After(events, cursor, scope) == []
  {
    if events != [] {
      NoneAfter(events[1..], cursor, scope);
    }
  }

  lemma {:induction false} AfterConcat(a: seq<Event>, b: seq<Event>, cursor: int, scope: string)
    ensures After(a + b, cursor, scope) == After(a, cursor, scope) + After(b, cursor, scope)
  {
    if a == [] {
      assert a + b == b;
    } else {
      assert (a + b)[1..] == a[1..] + b;
      AfterConcat(a[1..], b, cursor, scope);
    }
  }

  // ---- the ring invariant ----

  ghost predicate Numbered(log: seq<Event>) {
    forall i :: 0 <= i < |log| ==> log[i].at == i + 1
  }

  /** The ring holds exactly the unpurged events above the floor. */
  ghost predicate RingOk(lim: Limits, tr: Tracked) {
    && |tr.log| == tr.store.at && Numbered(tr.log)
    && tr.floor <= |tr.log|
    && tr.store.events == Live(tr.log[tr.floor..], tr.purged)
    && |tr.store.events| <= lim.eventCapacity
    && (forall n :: n in tr.purged ==> n <= |tr.log|)
  }

  /** What one call does to the ring and the counter. */
  lemma ApplyEvents(lim: Limits, s: Store, op: Op)
    requires !Resets(s, op)
    ensures var next := Apply(lim, s, op);
      match Emitted(lim, s, op)
      case None => next.events == s.events && next.at == s.at
      case Some(e) =>
        && next.at == s.at + 1 && e.at == s.at + 1
        && next.events == Push(lim, KeptEvents(lim, s.events, op), e)
  {
    hide CapThreads, Install, Trim, RecordThread, Bury, Bounded, ThreadIdOf, HydrateThread, Push, NotOf, IsTombstone;
  }

  /** Where the first live event of a log lies. */
  lemma {:induction false} FirstLive(log: seq<Event>, purged: set<nat>) returns (j: nat)
    requires Live(log, purged) != []
    ensures 0 < j <= |log| && log[j - 1] == Live(log, purged)[0] && Live(log, purged)[1..] == Live(log[j..], purged)
  {
    if log[0].at in purged {
      assert Live(log, purged) == Live(log[1..], purged);
      var i := FirstLive(log[1..], purged);
      assert log[1..][i..] == log[i + 1..];
      j := i + 1;
    } else {
      j := 1;
    }
  }

  /** Appending to a bounded ring keeps it equal to the live part of the log above the new floor. */
  lemma PushKeepsRing(lim: Limits, log: seq<Event>, floor: nat, purged: set<nat>, kept: seq<Event>, e: Event)
    requires lim.eventCapacity >= 1 && Numbered(log) && floor <= |log| && e.at == |log| + 1
    requires kept == Live(log[floor..], purged) && |kept| <= lim.eventCapacity && e.at !in purged
    ensures var top := FloorAfter(lim, kept, floor);
      && top <= |log|
      && Push(lim, kept, e) == Live((log + [e])[top..], purged)
      && |Push(lim, kept, e)| <= lim.eventCapacity
  {
    hide Live;
    LiveOne(e, purged);
    var tail := log[floor..];
    if |kept| < lim.eventCapacity {
      assert (log + [e])[floor..] == tail + [e];
      LiveConcat(tail, [e], purged);
    } else {
      var j := FirstLive(tail, purged);
      assert tail[j - 1] == log[floor + j - 1];
      assert kept[0].at == floor + j;
      assert (log + [e])[floor + j..] == tail[j..] + [e];
      LiveConcat(tail[j..], [e], purged);
      assert (kept + [e])[1..] == kept[1..] + [e];
    }
  }

  lemma LiveOne(e: Event, purged: set<nat>)
    requires e.at !in purged
    ensures Live([e], purged) == [e]
  {
    assert Live([e][1..], purged) == [];
  }

  lemma KeptIsLive(lim: Limits, tr: Tracked, op: Op)
    requires RingOk(lim, tr)
    ensures KeptEvents(lim, tr.store.events, op) == Live(tr.log[tr.floor..], tr.purged + PurgedBy(lim, tr.log, op))
    ensures |KeptEvents(lim, tr.store.events, op)| <= |tr.store.events|
  {
    hide Live, NotOf, Purges;
    match Purges(lim, op)
    case None =>
      assert tr.purged + PurgedBy(lim, tr.log, op) == tr.purged;
    case Some(tid) =>
      LivePurge(tr.log[tr.floor..], tr.purged, tid, tr.log);
      NotOfShorter(tr.store.events, tid);
  }

  lemma TrackOk(lim: Limits, tr: Tracked, op: Op)
    requires lim.eventCapacity >= 1 && RingOk(lim, tr)
    ensures RingOk(lim, Track(lim, tr, op))
  {
    hide Apply, Push, Live, NotOf, Purges, Emitted, KeptEvents, FloorAfter;
    if !Resets(tr.store, op) {
      ApplyEvents(lim, tr.store, op);
      match Emitted(lim, tr.store, op)
      case None =>
      case Some(e) =>
        var purged := tr.purged + PurgedBy(lim, tr.log, op);
        KeptIsLive(lim, tr, op);
        PushKeepsRing(lim, tr.log, tr.floor, purged, KeptEvents(lim, tr.store.events, op), e);
    } else {
      ConnectClears(lim, tr.store, op);
      LiveNone(lim);
    }
  }

  lemma {:induction false} NotOfShorter(events: seq<Event>, tid: Json)
    ensures |NotOf(events, tid)| <= |events|
  {
    if events != [] {
      NotOfShorter(events[1..], tid);
    }
  }

  lemma ConnectClears(lim: Limits, s: Store, op: Op)
    requires Resets(s, op)
    ensures Apply(lim, s, op).events == [] && Apply(lim, s, op).at == 0
  {
  }

  lemma LiveNone(lim: Limits)
    ensures Live([], {}) == []
  {
  }

  /** The ring invariant holds in every reachable state. */
  lemma {:induction false} TrackRunOk(lim: Limits, ops: seq<Op>)
    requires lim.eventCapacity >= 1
    ensures RingOk(lim, TrackRun(lim, ops)) && TrackRun(lim, ops).store == Run(lim, ops)
    decreases |ops|
  {
    if ops != [] {
      TrackRunOk(lim, ops[..|ops| - 1]);
      TrackOk(lim, TrackRun(lim, ops[..|ops| - 1]), ops[|ops| - 1]);
    }
  }

  // ---- how far the ring has dropped ----

  /** What the ring has dropped was followed by a ring full of events; if only by one, the ring still holds it. */
  ghost predicate FloorOk(lim: Limits, tr: Tracked) {
    || tr.floor == 0
    || tr.floor + lim.eventCapacity < |tr.log|
    || (tr.floor + lim.eventCapacity == |tr.log| && Oldest(tr.store) == tr.floor + 1)
  }

  lemma {:induction false} IncreasingBound(events: seq<Event>, top: int)
    requires Increasing(events) && events != [] && forall e :: e in events ==> e.at <= top
    ensures events[0].at + |events| - 1 <= top
    ensures events[0].at + |events| - 1 == top ==> forall i :: 0 <= i < |events| ==> events[i].at == events[0].at + i
    decreases |events|
  {
    var rest := events[1..];
    if rest != [] {
      IncreasingBound(rest, top);
      assert events[0].at < rest[0].at;
      assert forall i :: 0 < i < |events| ==> events[i] == rest[i - 1];
    } else {
      assert events[0] in events;
    }
  }

  /** Dropping the oldest of a full ring. */
  lemma {:induction false} FullRingFloor(lim: Limits, kept: seq<Event>, e: Event)
    requires lim.eventCapacity >= 1 && |kept| == lim.eventCapacity && Increasing(kept)
    requires forall x :: x in kept ==> x.at < e.at
    ensures var top := FloorAfter(lim, kept, 0);
      && top + lim.eventCapacity <= e.at
      && (top + lim.eventCapacity == e.at ==> Push(lim, kept, e) != [] && Push(lim, kept, e)[0].at == top + 1)
  {
    IncreasingBound(kept, e.at - 1);
    assert (kept + [e])[1..] == kept[1..] + [e];
  }

  lemma {:induction false} TrackFloorOk(lim: Limits, tr: Tracked, op: Op)
    requires lim.eventCapacity >= 1 && RingOk(lim, tr) && FloorOk(lim, tr)
    ensures FloorOk(lim, Track(lim, tr, op))
  {
    hide Apply, Push, Live, NotOf, Purges, Emitted, KeptEvents;
    if !Resets(tr.store, op) {
      ApplyEvents(lim, tr.store, op);
      match Emitted(lim, tr.store, op)
      case None =>
      case Some(e) =>
        var kept := KeptEvents(lim, tr.store.events, op);
        KeptIsLive(lim, tr, op);
        var tail, purged := tr.log[tr.floor..], tr.purged + PurgedBy(lim, tr.log, op);
        LiveIncreasing(tail, purged);
        forall x | x in kept ensures x.at < e.at {
          LiveMembers(tail, purged, x);
          var i :| 0 <= i < |tail| && tail[i] == x;
          assert tr.log[tr.floor + i] == x;
        }
        if |kept| == lim.eventCapacity {
          FullRingFloor(lim, kept, e);
        }
    }
  }

  lemma {:induction false} TrackRunFloorOk(lim: Limits, ops: seq<Op>)
    requires lim.eventCapacity >= 1
    ensures FloorOk(lim, TrackRun(lim, ops))
    decreases |ops|
  {
    hide FloorOk, RingOk;
    if ops == [] {
      NothingDropped(lim);
    } else {
      var init := ops[..|ops| - 1];
      TrackRunOk(lim, init);
      TrackRunFloorOk(lim, init);
      TrackFloorOk(lim, TrackRun(lim, init), ops[|ops| - 1]);
    }
  }

  lemma NothingDropped(lim: Limits)
    ensures FloorOk(lim, Tracked(EMPTY, [], {}, 0))
  {
  }

  // ---- one poll ----

  /** Every in-scope event recorded after `cursor`, minus those purged with a deleted thread. */
  function Owed(tr: Tracked, cursor: nat, scope: string): seq<Event>
    requires cursor <= |tr.log|
  {
    Scoped(Live(tr.log[cursor..], tr.purged), scope)
  }

  lemma SplitLive(tr: Tracked, a: nat, b: nat, scope: string)
    requires a <= b <= |tr.log|
    ensures Live(tr.log[a..], tr.purged) == Live(tr.log[a..b], tr.purged) + Live(tr.log[b..], tr.purged)
    ensures Owed(tr, a, scope) == Scoped(Live(tr.log[a..b], tr.purged), scope) + Owed(tr, b, scope)
  {
    assert tr.log[a..] == tr.log[a..b] + tr.log[b..];
    LiveConcat(tr.log[a..b], tr.log[b..], tr.purged);
    ScopedConcat(Live(tr.log[a..b], tr.purged), Live(tr.log[b..], tr.purged), scope);
  }

  lemma LiveRange(tr: Tracked, a: nat, b: nat, e: Event)
    requires Numbered(tr.log) && a <= b <= |tr.log| && e in Live(tr.log[a..b], tr.purged)
    ensures a < e.at <= b
  {
    LiveMembers(tr.log[a..b], tr.purged, e);
    var i :| 0 <= i < b - a && tr.log[a..b][i] == e;
    assert tr.log[a + i] == e;
  }

  /** What the filter over the ring returns, for any cursor up to the newest event. */
  lemma {:induction false} RingAfter(lim: Limits, tr: Tracked, cursor: int, scope: string)
    requires RingOk(lim, tr) && cursor <= |tr.log|
    ensures After(tr.store.events, cursor, scope) == Owed(tr, if cursor < tr.floor then tr.floor else cursor, scope)
  {
    hide Live, Scoped, After, InScope;
    var from := if cursor < tr.floor then tr.floor else cursor;
    var low, high := Live(tr.log[tr.floor..from], tr.purged), Live(tr.log[from..], tr.purged);
    SplitLive(tr, tr.floor, from, scope);
    forall e | e in low ensures e.at <= cursor {
      LiveRange(tr, tr.floor, from, e);
    }
    forall e | e in high ensures e.at > cursor {
      assert tr.log[from..] == tr.log[from..|tr.log|];
      LiveRange(tr, from, |tr.log|, e);
    }
    NoneAfter(low, cursor, scope);
    AllAfter(high, cursor, scope);
    AfterConcat(low, high, cursor, scope);
  }

  lemma OldestAboveFloor(lim: Limits, tr: Tracked)
    requires RingOk(lim, tr)
    ensures tr.floor <= Oldest(tr.store) - 1
  {
    if tr.store.events != [] {
      var e := tr.store.events[0];
      assert tr.log[tr.floor..] == tr.log[tr.floor..|tr.log|];
      LiveRange(tr, tr.floor, |tr.log|, e);
    }
  }

  /** A reader in its own generation whose thread is not deleted, told that no resync is needed,
      receives exactly the events it is owed, in order. */
  lemma PollIsComplete(lim: Limits, tr: Tracked, cursor: int, scope: string)
    requires RingOk(lim, tr)
    ensures var poll := EventsSince(tr.store, cursor, Some(tr.store.generation), scope);
      !poll.resync && !DeletedScope(tr.store, scope) ==>
        0 <= cursor <= |tr.log| && poll.events == Owed(tr, cursor, scope) && poll.cursor == |tr.log|
  {
    if !Gap(tr.store, cursor, Some(tr.store.generation), scope) && !DeletedScope(tr.store, scope) {
      OldestAboveFloor(lim, tr);
      RingAfter(lim, tr, cursor, scope);
    }
  }

  // ---- the scope of a deleted thread, for which the gap test is waived ----

  /** A reader of its own generation is told to resync, or gets exactly what it is owed. */
  ghost predicate CompleteAt(tr: Tracked, cursor: int, scope: string) {
    var poll := EventsSince(tr.store, cursor, Some(tr.store.generation), scope);
    poll.resync || (cursor <= |tr.log| && poll.events == Owed(tr, Max(cursor, 0), scope))
  }

  lemma {:induction false} CompleteAbove(lim: Limits, tr: Tracked, cursor: int, scope: string)
    requires RingOk(lim, tr) && Max(cursor, 0) >= tr.floor
    ensures CompleteAt(tr, cursor, scope)
  {
    hide DeletedScope, After, Owed;
    if !EventsSince(tr.store, cursor, Some(tr.store.generation), scope).resync {
      RingAfter(lim, tr, cursor, scope);
    }
  }

  /** The cursor is below what the gap test asks for, and a full ring can have dropped the next event: more events
      followed that one than the ring holds, or exactly as many and the ring begins right behind it. */
  predicate Losable(capacity: nat, at: nat, oldest: nat, cursor: nat) {
    && cursor + 1 < oldest
    && (at > cursor + capacity + 1 || (at == cursor + capacity + 1 && oldest == cursor + 2))
  }

  lemma {:induction false} CompleteUnlessLosable(lim: Limits, tr: Tracked, cursor: int, scope: string)
    requires RingOk(lim, tr) && FloorOk(lim, tr)
    requires !Losable(lim.eventCapacity, tr.store.at, Oldest(tr.store), Max(cursor, 0))
    ensures CompleteAt(tr, cursor, scope)
  {
    hide CompleteAt;
    OldestAboveFloor(lim, tr);
    CompleteAbove(lim, tr, cursor, scope);
  }

  // ---- runs that lose an event ----

  const GLOBAL := OpRecord("account/updated", Obj([]))
  const REVERT := OpRecord("thread/reverted", Obj([("threadId", Str("t"))]))
  const DELETION := OpRecord("thread/deleted", Obj([("threadId", Str("t"))]))

  function Notice(n: nat): Event {
    Event(n, "account/updated", Obj([]), Null, false)
  }

  function Reverted(n: nat): Event {
    Event(n, "thread/reverted", Obj([("threadId", Str("t"))]), Str("t"), false)
  }

  lemma CopyOfThread(limit: nat)
    requires limit >= 1
    ensures Bounded(limit, Obj([("threadId", Str("t"))])) == (Obj([("threadId", Str("t"))]), false)
  {
    var f: Dict<string, Json> := [("threadId", Str("t"))];
    var b := Budget(CHAR_BUDGET, NODE_BUDGET - 1, false);
    assert "t"[1..] == "" && Utf8Len("t") == 1;
    assert f[1..] == [];
    var e := Walk(limit, Str("t"), 1, b).1;
    assert Walk(limit, Str("t"), 1, b) == (Str("t"), b.(nodes := b.nodes - 1, chars := b.chars - 1));
    assert WalkFields(limit, f, 0, b, []) == WalkFields(limit, f[1..], 0, e, Put([], "threadId", Str("t")));
    assert WalkFields(limit, f, 0, b, []) == (f, e);
  }

  lemma CopyOfNothing(limit: nat)
    ensures Bounded(limit, Obj([])) == (Obj([]), false)
  {
    assert Prefix<(string, Json)>([]) == [];
  }

  lemma NamesOfThread()
    ensures ThreadIdOf(Obj([("threadId", Str("t"))])) == Str("t") && ThreadIdOf(Obj([])) == Null
  {
  }

  /** The table holds nothing but, perhaps, thread "t". */
  predicate OnlyT(threads: Dict<string, Thread>) {
    threads == [] || (|threads| == 1 && threads[0].0 == "t")
  }

  lemma {:induction false} GlobalStep(lim: Limits, s: Store)
    ensures Emitted(lim, s, GLOBAL) == Some(Notice(s.at + 1)) && Purges(lim, GLOBAL) == None
    ensures Apply(lim, s, GLOBAL).threads == s.threads
  {
    hide Bounded, ThreadIdOf, Push;
    CopyOfNothing(lim.textLimit);
    NamesOfThread();
    assert |"account/updated"| == 15;
    assert "account/updated"[0] != "thread/deleted"[0];
  }

  lemma {:induction false} RevertStep(lim: Limits, s: Store)
    requires lim.textLimit >= 1 && s.threads == []
    ensures Emitted(lim, s, REVERT) == Some(Reverted(s.at + 1)) && Purges(lim, REVERT) == None
    ensures Apply(lim, s, REVERT).threads == []
  {
    hide Bounded, ThreadIdOf, Push;
    CopyOfThread(lim.textLimit);
    NamesOfThread();
    assert |"thread/reverted"| == 15 && |"thread/deleted"| == 14;
  }

  lemma {:induction false} Buried(lim: Limits, threads: Dict<string, Thread>, cwd: Json, at: nat)
    requires lim.maxThreads >= 1 && OnlyT(threads)
    ensures OnlyT(Bury(lim, threads, "t", cwd, at)) && IsTombstone(Bury(lim, threads, "t", cwd, at), Str("t"))
  {
    hide Tombstone, Deleted;
    TombstoneIsDeleted("t", cwd, at);
    assert Del(threads, "t") == [];
    assert Bury(lim, threads, "t", cwd, at) == [("t", Tombstone("t", cwd, at))];
  }

  lemma {:induction false} DeletionStep(lim: Limits, s: Store)
    requires lim.textLimit >= 1 && lim.maxThreads >= 1 && OnlyT(s.threads)
    ensures Emitted(lim, s, DELETION) == Some(DeletedEvent(Str("t"), s.at + 1))
      && Purges(lim, DELETION) == Some(Str("t"))
    ensures OnlyT(Apply(lim, s, DELETION).threads) && DeletedScope(Apply(lim, s, DELETION), "t")
  {
    hide Bounded, ThreadIdOf, ThreadData, HeldCwd, Push, NotOf, Bury, OnlyT, IsTombstone;
    CopyOfThread(lim.textLimit);
    NamesOfThread();
    assert |"thread/deleted"| == 14;
    Buried(lim, s.threads, Or(Lookup(ThreadData(Obj([("threadId", Str("t"))])), "cwd"), HeldCwd(s.threads, "t")),
      s.at + 1);
  }

  /** Up to number `turn`: notices that name no thread up to `lost` and at `oldest`, and events of thread "t" at the
      other numbers. From then on, deletions of "t". */
  function Script(lost: nat, oldest: nat, turn: nat, n: nat): (ops: seq<Op>)
    ensures |ops| == n
  {
    if n == 0 then [] else Script(lost, oldest, turn, n - 1) + [Call(lost, oldest, turn, n)]
  }

  function Call(lost: nat, oldest: nat, turn: nat, n: nat): Op {
    if n > turn then DELETION else if n <= lost || n == oldest then GLOBAL else REVERT
  }

  /** The event the script records at number `n`. */
  function Expected(lost: nat, oldest: nat, turn: nat, n: nat): Event {
    if n > turn then DeletedEvent(Str("t"), n) else if n <= lost || n == oldest then Notice(n) else Reverted(n)
  }

  /** After `n` calls of the script: up to `turn` nothing is purged and the ring holds the last events; then
      everything of thread "t" but its last deletion is purged, and the ring drops nothing more. */
  ghost predicate Scripted(lim: Limits, tr: Tracked, lost: nat, oldest: nat, turn: nat, n: nat) {
    && |tr.log| == n && (forall i :: 1 <= i <= n ==> tr.log[i - 1] == Expected(lost, oldest, turn, i))
    && OnlyT(tr.store.threads) && (if n <= turn then tr.store.threads == [] else DeletedScope(tr.store, "t"))
    && (forall m :: m in tr.purged <==> turn < n && 1 <= m < n && tr.log[m - 1].threadId == Str("t"))
    && tr.floor == Max(0, (if n <= turn then n else turn) - lim.eventCapacity)
  }

  lemma {:induction false} LiveAll(log: seq<Event>)
    ensures Live(log, {}) == log
  {
    if log != [] {
      LiveAll(log[1..]);
      assert log == [log[0]] + log[1..];
    }
  }

  lemma {:induction false} PlainStep(lim: Limits, tr: Tracked, op: Op, lost: nat, oldest: nat, turn: nat, n: nat)
    requires lim.eventCapacity >= 1 && RingOk(lim, tr) && Scripted(lim, tr, lost, oldest, turn, n) && n < turn
      && op.OpRecord?
    requires Emitted(lim, tr.store, op) == Some(Expected(lost, oldest, turn, n + 1)) && Purges(lim, op) == None
    requires Apply(lim, tr.store, op).threads == []
    ensures Scripted(lim, Track(lim, tr, op), lost, oldest, turn, n + 1)
  {
    hide Apply, Emitted, Purges, Live, DeletedScope;
    assert tr.purged == {} && tr.purged + {} == {};
    LiveAll(tr.log[tr.floor..]);
    assert tr.store.events == tr.log[tr.floor..];
  }

  /** A deletion of "t" leaves at most the notice numbered `oldest` above the floor. */
  lemma {:induction false} KeptBesides(lim: Limits, tr: Tracked, lost: nat, oldest: nat, turn: nat, n: nat)
    requires lim.eventCapacity >= 1 && RingOk(lim, tr) && Scripted(lim, tr, lost, oldest, turn, n) && n >= turn
    requires turn >= lost + lim.eventCapacity && (oldest <= turn ==> lim.eventCapacity >= 2)
    requires Purges(lim, DELETION) == Some(Str("t"))
    ensures |KeptEvents(lim, tr.store.events, DELETION)| < lim.eventCapacity
  {
    hide Purges, Live, NotOf, DeletedScope, KeptEvents, Max, NumbersOf;
    var kept := KeptEvents(lim, tr.store.events, DELETION);
    FloorAboveLost(lim, tr, lost, oldest, turn, n);
    var tail, purged := tr.log[tr.floor..], tr.purged + PurgedBy(lim, tr.log, DELETION);
    KeptIsLive(lim, tr, DELETION);
    LiveIncreasing(tail, purged);
    assert purged == tr.purged + NumbersOf(tr.log, Str("t"));
    forall x | x in kept ensures x.at == oldest && oldest <= turn {
      LiveMembers(tail, purged, x);
      var i :| 0 <= i < |tail| && tail[i] == x;
      var n := tr.floor + i + 1;
      assert tr.log[n - 1] == x == Expected(lost, oldest, turn, n);
      NumbersHere(tr.log, Str("t"), n, lost, oldest, turn);
    }
    if kept != [] {
      assert kept[0] in kept;
      IncreasingBound(kept, oldest);
    }
  }

  lemma FloorAboveLost(lim: Limits, tr: Tracked, lost: nat, oldest: nat, turn: nat, n: nat)
    requires Scripted(lim, tr, lost, oldest, turn, n) && n >= turn >= lost + lim.eventCapacity
    ensures tr.floor == turn - lim.eventCapacity >= lost
  {
  }

  lemma {:induction false} PurgingStep(lim: Limits, tr: Tracked, lost: nat, oldest: nat, turn: nat, n: nat)
    requires lim.eventCapacity >= 1 && RingOk(lim, tr) && Scripted(lim, tr, lost, oldest, turn, n) && n >= turn
    requires Emitted(lim, tr.store, DELETION) == Some(DeletedEvent(Str("t"), n + 1))
      && Purges(lim, DELETION) == Some(Str("t"))
    requires var next := Apply(lim, tr.store, DELETION); OnlyT(next.threads) && DeletedScope(next, "t")
    requires |KeptEvents(lim, tr.store.events, DELETION)| < lim.eventCapacity
    ensures Scripted(lim, Track(lim, tr, DELETION), lost, oldest, turn, n + 1)
  {
    hide Apply, Emitted, Purges, Live, DeletedScope, KeptEvents, RingOk, OnlyT;
    var next := Track(lim, tr, DELETION);
    var e := DeletedEvent(Str("t"), n + 1);
    assert next.log == tr.log + [e];
    assert next.purged == tr.purged + NumbersOf(tr.log, Str("t"));
    forall i | 1 <= i <= n + 1 ensures next.log[i - 1] == Expected(lost, oldest, turn, i) {
      assert i <= n ==> next.log[i - 1] == tr.log[i - 1];
    }
    forall m: nat ensures m in NumbersOf(tr.log, Str("t")) <==> 1 <= m < n + 1 && next.log[m - 1].threadId == Str("t") {
      NumbersHere(tr.log, Str("t"), m, lost, oldest, turn);
      assert 1 <= m <= n ==> next.log[m - 1] == tr.log[m - 1];
    }
    assert forall m :: m in tr.purged ==> 1 <= m < n && next.log[m - 1] == tr.log[m - 1];
  }

  lemma NumbersHere(log: seq<Event>, tid: Json, m: nat, lost: nat, oldest: nat, turn: nat)
    requires forall i :: 1 <= i <= |log| ==> log[i - 1] == Expected(lost, oldest, turn, i)
    ensures m in NumbersOf(log, tid) <==> 1 <= m <= |log| && log[m - 1].threadId == tid
  {
    if m in NumbersOf(log, tid) {
      var e :| e in log && e.threadId == tid && e.at == m;
      var j :| 0 <= j < |log| && log[j] == e;
      assert log[(j + 1) - 1] == Expected(lost, oldest, turn, j + 1);
    }
    if 1 <= m <= |log| && log[m - 1].threadId == tid {
      assert log[m - 1] == Expected(lost, oldest, turn, m);
      assert log[m - 1] in log && log[m - 1].at == m;
    }
  }

  lemma ScriptGoesOn(lim: Limits, lost: nat, oldest: nat, turn: nat, n: nat)
    requires lim.eventCapacity >= 1 && n > 0
    ensures TrackRun(lim, Script(lost, oldest, turn, n))
      == Track(lim, TrackRun(lim, Script(lost, oldest, turn, n - 1)), Call(lost, oldest, turn, n))
    ensures n <= turn ==> Call(lost, oldest, turn, n) in {GLOBAL, REVERT}
    ensures n > turn ==>
      Call(lost, oldest, turn, n) == DELETION && Expected(lost, oldest, turn, n) == DeletedEvent(Str("t"), n)
    ensures n <= turn ==>
      Expected(lost, oldest, turn, n) == if Call(lost, oldest, turn, n) == GLOBAL then Notice(n) else Reverted(n)
    ensures Call(lost, oldest, turn, n).OpRecord? && GLOBAL != REVERT
  {
    hide Track;
    assert |"account/updated"| == 15 && "account/updated"[0] == 'a' && "thread/reverted"[0] == 't';
    var ops := Script(lost, oldest, turn, n);
    assert ops[..n - 1] == Script(lost, oldest, turn, n - 1);
  }

  /** The script as far as its first deletion, and on while each deletion leaves room in the ring. */
  lemma {:induction false} ScriptRuns(lim: Limits, lost: nat, oldest: nat, turn: nat, n: nat)
    requires lim.eventCapacity >= 1 && lim.textLimit >= 1 && lim.maxThreads >= 1
    requires n > turn ==> turn >= lost + lim.eventCapacity && (oldest <= turn ==> lim.eventCapacity >= 2)
    ensures Scripted(lim, TrackRun(lim, Script(lost, oldest, turn, n)), lost, oldest, turn, n)
  {
    hide *;
    if n == 0 {
      ScriptStarts(lim, lost, oldest, turn);
    } else {
      var ops := Script(lost, oldest, turn, n - 1);
      ScriptRuns(lim, lost, oldest, turn, n - 1);
      var tr := TrackRun(lim, ops);
      TrackRunOk(lim, ops);
      ScriptGoesOn(lim, lost, oldest, turn, n);
      ScriptedGives(lim, tr, lost, oldest, turn, n - 1);
      if n <= turn {
        GlobalStep(lim, tr.store);
        RevertStep(lim, tr.store);
        PlainStep(lim, tr, Call(lost, oldest, turn, n), lost, oldest, turn, n - 1);
      } else {
        DeletionStep(lim, tr.store);
        KeptBesides(lim, tr, lost, oldest, turn, n - 1);
        PurgingStep(lim, tr, lost, oldest, turn, n - 1);
      }
    }
  }

  lemma ScriptedGives(lim: Limits, tr: Tracked, lost: nat, oldest: nat, turn: nat, n: nat)
    requires RingOk(lim, tr) && Scripted(lim, tr, lost, oldest, turn, n)
    ensures tr.store.at == n && OnlyT(tr.store.threads) && (n <= turn ==> tr.store.threads == [])
  {
  }

  lemma ScriptStarts(lim: Limits, lost: nat, oldest: nat, turn: nat)
    requires lim.eventCapacity >= 1
    ensures Scripted(lim, TrackRun(lim, Script(lost, oldest, turn, 0)), lost, oldest, turn, 0)
  {
  }

  /** The first live number above the floor is where the ring begins. */
  lemma {:induction false} OldestIs(lim: Limits, tr: Tracked, oldest: nat)
    requires RingOk(lim, tr) && tr.floor < oldest <= |tr.log| && oldest !in tr.purged
    requires forall m: nat :: tr.floor < m < oldest ==> m in tr.purged
    ensures Oldest(tr.store) == oldest
  {
    hide Live;
    var events, tail := tr.store.events, tr.log[tr.floor..];
    var e := tr.log[oldest - 1];
    assert tail[oldest - 1 - tr.floor] == e && e in tail;
    LiveMembers(tail, tr.purged, e);
    LiveIncreasing(tail, tr.purged);
    var first := events[0];
    assert first in events;
    LiveMembers(tail, tr.purged, first);
    assert tail == tr.log[tr.floor..|tr.log|];
    LiveRange(tr, tr.floor, |tr.log|, first);
  }

  /** The reader is not told to resync, is owed `e` and does not get it. */
  ghost predicate Misses(tr: Tracked, cursor: nat, scope: string, e: Event) {
    var poll := EventsSince(tr.store, cursor, Some(tr.store.generation), scope);
    !poll.resync && cursor <= |tr.log| && e in Owed(tr, cursor, scope) && e !in poll.events
  }

  /** An unpurged event that names no thread and lies between cursor and floor is lost to a deleted scope. */
  lemma {:induction false} LostToScope(lim: Limits, tr: Tracked, cursor: int, scope: string)
    requires RingOk(lim, tr) && DeletedScope(tr.store, scope) && Max(cursor, 0) < tr.floor
    requires var n := Max(cursor, 0) + 1; tr.log[n - 1] == Notice(n) && n !in tr.purged
    ensures !CompleteAt(tr, cursor, scope) && (cursor >= 0 ==> Misses(tr, cursor, scope, Notice(cursor + 1)))
  {
    hide DeletedScope, After, Live, Scoped;
    var from := Max(cursor, 0);
    var e := tr.log[from];
    assert e in tr.log;
    OwedMembers(lim, tr, from, scope, e);
    RingAfter(lim, tr, cursor, scope);
    OwedMembers(lim, tr, tr.floor, scope, e);
  }

  /** From which number the script that loses `lost` and keeps `oldest` deletes. */
  function TurnOf(capacity: nat, at: nat, oldest: nat, lost: nat): nat
    requires at >= 1
  {
    if oldest < at then Max(oldest, lost + capacity) else at - 1
  }

  lemma {:induction false} ScriptedLoses(lim: Limits, tr: Tracked, at: nat, oldest: nat, cursor: int)
    requires lim.eventCapacity >= 1 && RingOk(lim, tr)
    requires Max(cursor, 0) + 1 < oldest <= at && at > Max(cursor, 0) + lim.eventCapacity + 1
    requires Scripted(lim, tr, Max(cursor, 0) + 1, oldest, TurnOf(lim.eventCapacity, at, oldest, Max(cursor, 0) + 1),
      at)
    ensures tr.store.at == at && Oldest(tr.store) == oldest && DeletedScope(tr.store, "t")
      && !CompleteAt(tr, cursor, "t")
  {
    hide Live, DeletedScope, CompleteAt, Oldest;
    var d := Max(cursor, 0) + 1;
    var turn := TurnOf(lim.eventCapacity, at, oldest, d);
    assert tr.floor == turn - lim.eventCapacity;
    forall m: nat | tr.floor < m < oldest ensures m in tr.purged {
      assert tr.log[m - 1] == Expected(d, oldest, turn, m);
    }
    assert tr.log[oldest - 1] == Expected(d, oldest, turn, oldest);
    assert tr.log[d - 1] == Expected(d, oldest, turn, d);
    OldestIs(lim, tr, oldest);
    LostToScope(lim, tr, cursor, "t");
  }

  /** Enough events after the lost one, some of them purged: the ring then begins at any later number. */
  lemma {:induction false} LosesWithPurge(lim: Limits, at: nat, oldest: nat, cursor: int)
    requires lim.eventCapacity >= 1 && lim.textLimit >= 1 && lim.maxThreads >= 1
    requires Max(cursor, 0) + 1 < oldest <= at && at > Max(cursor, 0) + lim.eventCapacity + 1
      && (lim.eventCapacity == 1 ==> oldest == at)
    ensures var lost := Max(cursor, 0) + 1;
      var tr := TrackRun(lim, Script(lost, oldest, TurnOf(lim.eventCapacity, at, oldest, lost), at));
      && tr.store.at == at && Oldest(tr.store) == oldest && DeletedScope(tr.store, "t") && !CompleteAt(tr, cursor, "t")
  {
    var lost := Max(cursor, 0) + 1;
    var turn := TurnOf(lim.eventCapacity, at, oldest, lost);
    assert turn < at && turn >= lost + lim.eventCapacity && (oldest <= turn ==> lim.eventCapacity >= 2);
    hide *;
    TrackRunOk(lim, Script(lost, oldest, turn, at));
    ScriptRuns(lim, lost, oldest, turn, at);
    ScriptedLoses(lim, TrackRun(lim, Script(lost, oldest, turn, at)), at, oldest, cursor);
  }

  lemma {:induction false} FullRingLoses(lim: Limits, was: Tracked, n: nat, cursor: int)
    requires lim.eventCapacity >= 1 && lim.textLimit >= 1 && lim.maxThreads >= 1
    requires n == Max(cursor, 0) + lim.eventCapacity && RingOk(lim, was) && Scripted(lim, was, n, 0, n, n)
    ensures var tr := Track(lim, was, DELETION);
      && tr.store.at == n + 1 && Oldest(tr.store) == Max(cursor, 0) + 2 && DeletedScope(tr.store, "t")
         && !CompleteAt(tr, cursor, "t")
      && (cursor >= 0 ==> Misses(tr, cursor, "t", Notice(cursor + 1)))
  {
    hide Live, DeletedScope, CompleteAt, Misses, Oldest, Apply, Emitted, Purges, KeptEvents, PurgedBy;
    DeletionStep(lim, was.store);
    TrackOk(lim, was, DELETION);
    var tr := Track(lim, was, DELETION);
    FullOfNotices(lim, was, n);
    forall m: nat | 1 <= m <= n ensures tr.log[m - 1] == Notice(m) {
      assert was.log[m - 1] == Expected(n, 0, n, m);
    }
    assert tr.floor == Max(cursor, 0) + 1 && tr.purged == {};
    OldestIs(lim, tr, Max(cursor, 0) + 2);
    LostToScope(lim, tr, cursor, "t");
  }

  lemma {:induction false} LastIsDeletion(lim: Limits, n: nat)
    requires lim.eventCapacity >= 1
    ensures TrackRun(lim, Script(n, 0, n, n + 1)) == Track(lim, TrackRun(lim, Script(n, 0, n, n)), DELETION)
  {
    hide TrackRun, Track, Script;
    ScriptGoesOn(lim, n, 0, n, n + 1);
  }

  /** A deletion that fills the ring: it begins right behind the event it dropped. */
  lemma {:induction false} LosesWithoutPurge(lim: Limits, n: nat, cursor: int)
    requires lim.eventCapacity >= 1 && lim.textLimit >= 1 && lim.maxThreads >= 1
    requires n == Max(cursor, 0) + lim.eventCapacity
    ensures var tr := TrackRun(lim, Script(n, 0, n, n + 1));
      && tr.store.at == n + 1 && Oldest(tr.store) == Max(cursor, 0) + 2 && DeletedScope(tr.store, "t")
         && !CompleteAt(tr, cursor, "t")
      && (cursor >= 0 ==> Misses(tr, cursor, "t", Notice(cursor + 1)))
  {
    hide *;
    var was := TrackRun(lim, Script(n, 0, n, n));
    TrackRunOk(lim, Script(n, 0, n, n));
    ScriptRuns(lim, n, 0, n, n);
    FullRingLoses(lim, was, n, cursor);
    LastIsDeletion(lim, n);
  }

  lemma {:induction false} FullOfNotices(lim: Limits, was: Tracked, n: nat)
    requires lim.eventCapacity >= 1 && RingOk(lim, was) && Scripted(lim, was, n, 0, n, n) && n >= lim.eventCapacity
    requires Purges(lim, DELETION) == Some(Str("t"))
    ensures was.purged == {} && PurgedBy(lim, was.log, DELETION) == {}
    ensures var kept := KeptEvents(lim, was.store.events, DELETION);
      |kept| == lim.eventCapacity && kept[0].at == n - lim.eventCapacity + 1
  {
    hide Purges, Live, NotOf, DeletedScope;
    forall m: nat ensures m !in NumbersOf(was.log, Str("t")) {
      NumbersHere(was.log, Str("t"), m, n, 0, n);
      assert 1 <= m <= n ==> was.log[m - 1] == Expected(n, 0, n, m);
    }
    KeptIsLive(lim, was, DELETION);
    assert was.purged == {} && PurgedBy(lim, was.log, DELETION) == {} && was.purged + {} == {};
    LiveAll(was.log[was.floor..]);
    assert was.log[was.floor..][0] == was.log[was.floor] == was.log[(was.floor + 1) - 1];
  }

  /** The waiver can lose an event, whatever the capacity: as many notifications that name no thread as the ring holds,
      then the deletion of thread "t", drop the first one, and a reader of "t" is not told to resync. */
  lemma {:induction false} DeletedScopeLosesGlobalEvent(lim: Limits)
    requires lim.eventCapacity >= 1 && lim.textLimit >= 1 && lim.maxThreads >= 1
    ensures Misses(TrackRun(lim, Script(lim.eventCapacity, 0, lim.eventCapacity, lim.eventCapacity + 1)), 0, "t",
      Notice(1))
  {
    hide TrackRun, Misses, CompleteAt, DeletedScope, Oldest;
    LosesWithoutPurge(lim, lim.eventCapacity, 0);
  }

  /** The newest event is always in the ring. */
  ghost predicate HoldsNewest(s: Store) {
    s.at > 0 ==> s.events != [] && s.events[|s.events| - 1].at == s.at
  }

  lemma {:induction false} ApplyHoldsNewest(lim: Limits, s: Store, op: Op)
    requires lim.eventCapacity >= 1 && HoldsNewest(s)
    ensures HoldsNewest(Apply(lim, s, op))
  {
    hide Apply, Emitted, KeptEvents;
    if Resets(s, op) {
      ConnectClears(lim, s, op);
    } else {
      ApplyEvents(lim, s, op);
    }
  }

  lemma {:induction false} RunHoldsNewest(lim: Limits, ops: seq<Op>)
    requires lim.eventCapacity >= 1
    ensures HoldsNewest(Run(lim, ops))
    decreases |ops|
  {
    hide Apply;
    if ops != [] {
      RunHoldsNewest(lim, ops[..|ops| - 1]);
      ApplyHoldsNewest(lim, Run(lim, ops[..|ops| - 1]), ops[|ops| - 1]);
    }
  }

  lemma {:induction false} OldestInRing(lim: Limits, tr: Tracked)
    requires RingOk(lim, tr) && HoldsNewest(tr.store)
    ensures tr.store.at > 0 ==>
      1 <= Oldest(tr.store) <= tr.store.at && (lim.eventCapacity == 1 ==> Oldest(tr.store) == tr.store.at)
    ensures tr.store.at == 0 ==> Oldest(tr.store) == 1
  {
    hide Live;
    if tr.store.events != [] {
      assert tr.log[tr.floor..] == tr.log[tr.floor..|tr.log|];
      LiveRange(tr, tr.floor, |tr.log|, tr.store.events[0]);
    }
  }

  /** The same counter and the same oldest number. */
  predicate Alike(a: Store, b: Store) {
    a.at == b.at && Oldest(a) == Oldest(b)
  }

  /** When readers of deleted threads may miss something. Given one state of a run, readers at this cursor are
      complete in every run that ends with the same counter and the same oldest number, whatever deleted thread they
      ask for, if and only if the event behind the cursor is not one a full ring can have dropped. */
  lemma {:induction false} DeletedScopeExactly(lim: Limits, ops: seq<Op>, cursor: int)
    requires lim.eventCapacity >= 1 && lim.textLimit >= 1 && lim.maxThreads >= 1
    ensures var s := Run(lim, ops);
      (forall others, scope ::
         Alike(Run(lim, others), s) && DeletedScope(Run(lim, others), scope) ==>
           CompleteAt(TrackRun(lim, others), cursor, scope))
      <==> !Losable(lim.eventCapacity, s.at, Oldest(s), Max(cursor, 0))
  {
    hide Run, TrackRun, CompleteAt, DeletedScope, Oldest, Script, RingOk, HoldsNewest;
    var s := Run(lim, ops);
    if Losable(lim.eventCapacity, s.at, Oldest(s), Max(cursor, 0)) {
      var lost := Max(cursor, 0) + 1;
      TrackRunOk(lim, ops);
      RunHoldsNewest(lim, ops);
      OldestInRing(lim, TrackRun(lim, ops));
      if s.at > lost + lim.eventCapacity {
        LosesWithPurge(lim, s.at, Oldest(s), cursor);
        TrackRunOk(lim, Script(lost, Oldest(s), TurnOf(lim.eventCapacity, s.at, Oldest(s), lost), s.at));
      } else {
        var n: nat := s.at - 1;
        LosesWithoutPurge(lim, n, cursor);
        TrackRunOk(lim, Script(n, 0, n, n + 1));
      }
    } else {
      forall others, scope | Alike(Run(lim, others), s) && DeletedScope(Run(lim, others), scope)
        ensures CompleteAt(TrackRun(lim, others), cursor, scope)
      {
        TrackRunOk(lim, others);
        TrackRunFloorOk(lim, others);
        CompleteUnlessLosable(lim, TrackRun(lim, others), cursor, scope);
      }
    }
  }

  // ---- successive polls ----

  /** `later` continues `tr` in the same generation: its log extends and its purges accumulate. */
  ghost predicate Continues(tr: Tracked, later: Tracked) {
    tr.store.generation == later.store.generation && tr.log <= later.log && tr.purged <= later.purged
  }

  lemma TrackContinues(lim: Limits, tr: Tracked, op: Op)
    requires lim.eventCapacity >= 1 && !Resets(tr.store, op)
    ensures Continues(tr, Track(lim, tr, op))
  {
    hide CapThreads, Install, Trim, RecordThread, Bury, Bounded, ThreadIdOf, HydrateThread, Push, NotOf, IsTombstone;
  }

  function Received(polls: seq<Tracked>, cursor: int, scope: string): seq<Event> {
    if polls == [] then []
    else
      var poll := EventsSince(polls[0].store, cursor, Some(polls[0].store.generation), scope);
      poll.events + Received(polls[1..], poll.cursor, scope)
  }

  /** A reader that polls at these states, following the returned cursor, is never told to resync. */
  ghost predicate Smooth(lim: Limits, polls: seq<Tracked>, cursor: int, scope: string) {
    polls == [] ||
    (&& RingOk(lim, polls[0]) && !DeletedScope(polls[0].store, scope)
     && !EventsSince(polls[0].store, cursor, Some(polls[0].store.generation), scope).resync
     && (|polls| > 1 ==> Continues(polls[0], polls[1]))
     && Smooth(lim, polls[1..], polls[0].store.at, scope))
  }

  ghost predicate Increasing(events: seq<Event>) {
    forall i, j :: 0 <= i < j < |events| ==> events[i].at < events[j].at
  }

  lemma {:induction false} LiveIncreasing(log: seq<Event>, purged: set<nat>)
    requires Increasing(log)
    ensures Increasing(Live(log, purged))
  {
    if log != [] {
      LiveIncreasing(log[1..], purged);
      var r := Live(log[1..], purged);
      forall e | e in r ensures log[0].at < e.at {
        LiveMembers(log[1..], purged, e);
      }
    }
  }

  lemma {:induction false} ScopedIncreasing(log: seq<Event>, scope: string)
    requires Increasing(log)
    ensures Increasing(Scoped(log, scope))
  {
    if log != [] {
      ScopedIncreasing(log[1..], scope);
      var r := Scoped(log[1..], scope);
      forall e | e in r ensures log[0].at < e.at {
        ScopedMembers(log[1..], scope, e);
      }
    }
  }

  lemma OwedIncreasing(lim: Limits, tr: Tracked, cursor: nat, scope: string)
    requires RingOk(lim, tr) && cursor <= |tr.log|
    ensures Increasing(Owed(tr, cursor, scope))
  {
    LiveIncreasing(tr.log[cursor..], tr.purged);
    ScopedIncreasing(Live(tr.log[cursor..], tr.purged), scope);
  }

  lemma OwedMembers(lim: Limits, tr: Tracked, cursor: nat, scope: string, e: Event)
    requires RingOk(lim, tr) && cursor <= |tr.log|
    ensures e in Owed(tr, cursor, scope) <==> e in tr.log && e.at > cursor && e.at !in tr.purged && InScope(e, scope)
  {
    hide InScope, Live, Scoped;
    var tail := tr.log[cursor..];
    LiveMembers(tail, tr.purged, e);
    ScopedMembers(Live(tail, tr.purged), scope, e);
    if e in tr.log && e.at > cursor {
      var i :| 0 <= i < |tr.log| && tr.log[i] == e;
      assert tail[i - cursor] == e;
    }
  }

  /** Successive polls never repeat an event and never miss one that survives: what they return
      together is strictly increasing, every event in it was recorded above the starting cursor and is in scope,
      and every unpurged in-scope event up to the last poll is in it. */
  lemma {:induction false} PollsNeverMissOrRepeat(lim: Limits, polls: seq<Tracked>, cursor: int, scope: string,
                                                  e: Event)
    requires Smooth(lim, polls, cursor, scope) && polls != []
    ensures var last := polls[|polls| - 1];
      && Increasing(Received(polls, cursor, scope))
      && (e in Received(polls, cursor, scope) ==> e in last.log && e.at > cursor && InScope(e, scope))
      && (e in last.log && e.at > cursor && e.at !in last.purged && InScope(e, scope)
         ==> e in Received(polls, cursor, scope))
      && polls[0].log <= last.log && polls[0].purged <= last.purged
    decreases |polls|
  {
    hide InScope, Live, Scoped, EventsSince, Owed, DeletedScope;
    var tr, last := polls[0], polls[|polls| - 1];
    PollIsComplete(lim, tr, cursor, scope);
    var first, rest := Owed(tr, cursor, scope), Received(polls[1..], tr.store.at, scope);
    OwedMembers(lim, tr, cursor, scope, e);
    OwedIncreasing(lim, tr, cursor, scope);
    assert Received(polls, cursor, scope) == first + rest;
    if |polls| == 1 {
      assert rest == [];
    } else {
      assert polls[1..][|polls| - 2] == last;
      PollsNeverMissOrRepeat(lim, polls[1..], tr.store.at, scope, e);
      forall x | x in first ensures x.at <= tr.store.at {
        OwedMembers(lim, tr, cursor, scope, x);
        var i :| 0 <= i < |tr.log| && tr.log[i] == x;
      }
      forall x | x in rest ensures x.at > tr.store.at {
        PollsNeverMissOrRepeat(lim, polls[1..], tr.store.at, scope, x);
      }
      IncreasingConcat(first, rest, tr.store.at);
      LastRing(lim, polls[1..], tr.store.at, scope);
      OldEventsStay(tr.log, last.log, e);
    }
  }

  lemma IncreasingConcat(a: seq<Event>, b: seq<Event>, cut: nat)
    requires Increasing(a) && Increasing(b)
    requires (forall x :: x in a ==> x.at <= cut) && (forall x :: x in b ==> x.at > cut)
    ensures Increasing(a + b)
  {
    forall i, j | 0 <= i < j < |a + b| ensures (a + b)[i].at < (a + b)[j].at {
      if i < |a| <= j {
        assert a[i] in a && b[j - |a|] in b;
      }
    }
  }

  /** An event whose number an earlier log already reached was in that log. */
  lemma OldEventsStay(log: seq<Event>, later: seq<Event>, e: Event)
    requires Numbered(log) && Numbered(later) && log <= later
    ensures e in later && e.at <= |log| ==> e in log
    ensures e in log ==> e in later
  {
    if e in later && e.at <= |log| {
      var i :| 0 <= i < |later| && later[i] == e;
      assert log[i] == later[i];
    }
    if e in log {
      var i :| 0 <= i < |log| && log[i] == e;
      assert later[i] == e;
    }
  }

  lemma {:induction false} LastRing(lim: Limits, polls: seq<Tracked>, cursor: int, scope: string)
    requires Smooth(lim, polls, cursor, scope) && polls != []
    ensures RingOk(lim, polls[|polls| - 1])
    decreases |polls|
  {
    if |polls| > 1 {
      assert polls[1..][|polls| - 2] == polls[|polls| - 1];
      LastRing(lim, polls[1..], polls[0].store.at, scope);
    }
  }

  // ---- polls along a run ----

  /** No call from `i` up to `j` starts a new generation. */
  ghost predicate SameGeneration(lim: Limits, ops: seq<Op>, i: nat, j: nat)
    requires lim.eventCapacity >= 1 && j <= |ops|
  {
    forall k :: i <= k < j ==> !Resets(TrackRun(lim, ops[..k]).store, ops[k])
  }

  lemma {:induction false} RunContinues(lim: Limits, ops: seq<Op>, i: nat, j: nat)
    requires lim.eventCapacity >= 1 && i <= j <= |ops| && SameGeneration(lim, ops, i, j)
    ensures Continues(TrackRun(lim, ops[..i]), TrackRun(lim, ops[..j]))
    decreases j
  {
    hide Track, Resets;
    if i < j {
      RunContinues(lim, ops, i, j - 1);
      TrackContinues(lim, TrackRun(lim, ops[..j - 1]), ops[j - 1]);
      assert ops[..j][..j - 1] == ops[..j - 1];
    }
  }

  /** The states a reader sees that polls after the first `cuts[0]` calls, then after `cuts[1]`, and so on. */
  function PollStates(lim: Limits, ops: seq<Op>, cuts: seq<nat>): (polls: seq<Tracked>)
    requires lim.eventCapacity >= 1 && forall i :: 0 <= i < |cuts| ==> cuts[i] <= |ops|
    ensures |polls| == |cuts| && forall i :: 0 <= i < |cuts| ==> polls[i] == TrackRun(lim, ops[..cuts[i]])
  {
    if cuts == [] then [] else [TrackRun(lim, ops[..cuts[0]])] + PollStates(lim, ops, cuts[1..])
  }

  /** Each poll passes the store's generation and the cursor the last one returned, is not scoped to a deleted
      thread, and is not told to resync; the generation does not change from the first poll to the last. */
  ghost predicate Undisturbed(lim: Limits, ops: seq<Op>, cuts: seq<nat>, cursor: int, scope: string)
    requires lim.eventCapacity >= 1 && forall i :: 0 <= i < |cuts| ==> cuts[i] <= |ops|
  {
    cuts == [] ||
    (var s := Run(lim, ops[..cuts[0]]);
     && !DeletedScope(s, scope)
     && !EventsSince(s, cursor, Some(s.generation), scope).resync
     && (|cuts| > 1 ==> cuts[0] <= cuts[1] && SameGeneration(lim, ops, cuts[0], cuts[1]))
     && Undisturbed(lim, ops, cuts[1..], s.at, scope))
  }

  lemma {:induction false} UndisturbedIsSmooth(lim: Limits, ops: seq<Op>, cuts: seq<nat>, cursor: int, scope: string)
    requires lim.eventCapacity >= 1 && forall i :: 0 <= i < |cuts| ==> cuts[i] <= |ops|
    requires Undisturbed(lim, ops, cuts, cursor, scope)
    ensures Smooth(lim, PollStates(lim, ops, cuts), cursor, scope)
    decreases |cuts|
  {
    hide DeletedScope, EventsSince, TrackRun, Run, RingOk, Continues, SameGeneration;
    if cuts != [] {
      TrackRunOk(lim, ops[..cuts[0]]);
      if |cuts| > 1 {
        RunContinues(lim, ops, cuts[0], cuts[1]);
      }
      UndisturbedIsSmooth(lim, ops, cuts[1..], Run(lim, ops[..cuts[0]]).at, scope);
      assert PollStates(lim, ops, cuts)[1..] == PollStates(lim, ops, cuts[1..]);
    }
  }

  /** A reader polling at any points of any run of calls, following its cursor: what it has received by its last
      poll is strictly increasing, was all recorded above its first cursor and in its scope, and contains every
      such event recorded so far, except events purged with a deleted thread. */
  lemma PollsAlongARun(lim: Limits, ops: seq<Op>, cuts: seq<nat>, cursor: int, scope: string, e: Event)
    requires lim.eventCapacity >= 1 && cuts != [] && forall i :: 0 <= i < |cuts| ==> cuts[i] <= |ops|
    requires Undisturbed(lim, ops, cuts, cursor, scope)
    ensures var got := Received(PollStates(lim, ops, cuts), cursor, scope);
      var last := TrackRun(lim, ops[..cuts[|cuts| - 1]]);
      && Increasing(got)
      && (e in got ==> e in last.log && e.at > cursor && InScope(e, scope))
      && (e in last.log && e.at > cursor && InScope(e, scope) && e.at !in last.purged ==> e in got)
  {
    hide Smooth, Undisturbed, Received, TrackRun, InScope;
    UndisturbedIsSmooth(lim, ops, cuts, cursor, scope);
    PollsNeverMissOrRepeat(lim, PollStates(lim, ops, cuts), cursor, scope, e);
  }
}
