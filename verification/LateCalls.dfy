/** The race of a snapshot with newer events as the store's callers see it: whole `record` and `hydrate` calls,
    with other threads' events in between (ccc_server/codex_conversation.py:184-314). */
module LateCalls {
  import opened OrderedDict
  import opened Json
  import opened Clipping
  import opened Conversation
  import opened Eviction
  import opened StoreOps
  import opened StoreInvariant
  import opened HydrateRace
  import opened Provenance
  import opened StoreHistory

  // ---- one recorded call while the store has room ----

  /** The bounded parameters of an event the store looks at. */
  predicate Accepted(op: Op) {
    op.OpRecord? && op.params.Obj? && 1 <= |op.name| <= 256
  }

  function Params(lim: Limits, op: Op): (Json, bool)
    requires op.OpRecord?
  {
    Bounded(lim.textLimit, op.params)
  }

  predicate Names(lim: Limits, op: Op, q: string) {
    Accepted(op) && 1 <= |q| <= 256 && ThreadIdOf(Params(lim, op).0) == Str(q)
  }

  /** Whether the call records an event and so takes the next number. */
  predicate Recorded(lim: Limits, threads: Dict<string, Thread>, op: Op) {
    && Accepted(op)
    && var tid := ThreadIdOf(Params(lim, op).0);
       (op.name == "thread/deleted" && IsId(tid)) || !IsTombstone(threads, tid)
  }

  /** The call adds no thread, or there is room for one. */
  predicate Room(lim: Limits, threads: Dict<string, Thread>, op: Op) {
    |threads| < lim.maxThreads || !Accepted(op)
      || (var tid := ThreadIdOf(Params(lim, op).0); !IsId(tid) || Has(threads, tid.s))
  }

  /** What a thread the call names becomes, given what is held of it. */
  function Touched(lim: Limits, held: Option<Thread>, q: string, op: Op, at: nat): Option<Thread>
    requires op.OpRecord?
  {
    var (p, clipped) := Params(lim, op);
    if op.name == "thread/deleted" then
      var cwd := match held case None => Null
        case Some(t) => (match Get(t.meta, "cwd") case None => Null case Some(m) => m.value);
      Some(Tombstone(q, Or(Lookup(ThreadData(p), "cwd"), cwd), at + 1))
    else if held.Some? && Deleted(held.value) then held
    else if op.name == "thread/reverted" then None
    else
      var t := match held case None => NewThread(q) case Some(t) => t;
      Some(Trim(lim, MergeEvent(lim, t, op.name, p, clipped, at + 1)))
  }

  lemma {:induction false} InstallRoomy(lim: Limits, threads: Dict<string, Thread>, tid: string, t: Thread)
    requires Distinct(threads) && (|threads| < lim.maxThreads || (Has(threads, tid) && |threads| <= lim.maxThreads))
    ensures CapThreads(lim, Install(threads, tid, t)) == Install(threads, tid, t)
    ensures |Install(threads, tid, t)| == |threads| + if Has(threads, tid) then 0 else 1
  {
    DelDistinct(threads, tid);
  }

  /** One `record` call, thread by thread. */
  lemma {:induction false} RecordsRoomy(lim: Limits, s: Store, op: Op, q: string)
    requires StoreOk(lim, s) && op.OpRecord? && Room(lim, s.threads, op)
    ensures var next := Apply(lim, s, op);
      && next.at == s.at + (if Recorded(lim, s.threads, op) then 1 else 0) && next.generation == s.generation
      && Get(next.threads, q) == (if Names(lim, op, q) then Touched(lim, Get(s.threads, q), q, op, s.at)
         else Get(s.threads, q))
  {
    hide Bounded, ThreadIdOf, ThreadData, CapThreads, Install, Tombstone, MergeEvent, Trim, Push, NotOf, NewThread, Del,
      Deleted;
    StoreOkDistinct(lim, s);
    var (p, clipped) := Params(lim, op);
    var tid := ThreadIdOf(p);
    if Accepted(op) && IsId(tid) {
      var cwd := Or(Lookup(ThreadData(p), "cwd"), HeldCwd(s.threads, tid.s));
      var merged := Trim(lim, MergeEvent(lim, ThreadOrNew(s.threads, tid.s), op.name, p, clipped, s.at + 1));
      InstallRoomy(lim, s.threads, tid.s, Tombstone(tid.s, cwd, s.at + 1));
      InstallRoomy(lim, s.threads, tid.s, merged);
      InstallGet(s.threads, tid.s, Tombstone(tid.s, cwd, s.at + 1), q);
      InstallGet(s.threads, tid.s, merged, q);
      GetDel(s.threads, tid.s, q);
    }
  }

  // ---- a run of recorded calls ----

  function AfterCalls(lim: Limits, s: Store, ops: seq<Op>): Store
    decreases |ops|
  {
    if ops == [] then s else AfterCalls(lim, Apply(lim, s, ops[0]), ops[1..])
  }

  /** The thread cap evicts nothing on the way. */
  predicate Roomy(lim: Limits, s: Store, ops: seq<Op>)
    decreases |ops|
  {
    ops == [] || (Room(lim, s.threads, ops[0]) && Roomy(lim, Apply(lim, s, ops[0]), ops[1..]))
  }

  /** Events of any threads; those of thread `q` neither delete nor revert it. */
  ghost predicate Ordinary(lim: Limits, ops: seq<Op>, q: string) {
    forall i :: 0 <= i < |ops| ==>
      && ops[i].OpRecord?
      && (Names(lim, ops[i], q) ==> ops[i].name != "thread/deleted" && ops[i].name != "thread/reverted")
  }

  /** The events of thread `q` among the calls, with the numbers they get. */
  function LiveOf(lim: Limits, s: Store, ops: seq<Op>, q: string): seq<Live>
    decreases |ops|
  {
    if ops == [] then []
    else
      var rest := LiveOf(lim, Apply(lim, s, ops[0]), ops[1..], q);
      if Names(lim, ops[0], q) then [Live(ops[0].name, Params(lim, ops[0]).0, Params(lim, ops[0]).1, s.at + 1)] + rest
        else rest
  }

  /** No event leaves the thread reading as deleted. */
  ghost predicate Alive(lim: Limits, t: Thread, events: seq<Live>)
    decreases |events|
  {
    && !Deleted(t)
    && (events == [] || Alive(lim, WithEvent(lim, t, events[0]), events[1..]))
  }

  function WithEvent(lim: Limits, t: Thread, e: Live): Thread {
    Trim(lim, MergeEvent(lim, t, e.name, e.params, e.clipped, e.at))
  }

  /** Two stores that differ at most in thread `q`. */
  ghost predicate Apart(a: Store, b: Store, q: string) {
    a.at == b.at && a.generation == b.generation && forall k :: k != q ==> Get(a.threads, k) == Get(b.threads, k)
  }

  lemma {:induction false} ApartStep(lim: Limits, a: Store, b: Store, op: Op, q: string)
    requires StoreOk(lim, a) && StoreOk(lim, b) && Apart(a, b, q) && op.OpRecord? && 1 <= |q| <= 256
    requires Room(lim, a.threads, op) && Room(lim, b.threads, op)
    requires !IsTombstone(a.threads, Str(q)) && !IsTombstone(b.threads, Str(q))
    ensures Apart(Apply(lim, a, op), Apply(lim, b, op), q)
  {
    hide Apply, Touched, Room, StoreOk, Bounded, ThreadIdOf;
    var tid := ThreadIdOf(Params(lim, op).0);
    assert IsTombstone(a.threads, tid) == IsTombstone(b.threads, tid) by {
      if tid.Str? && tid.s != q {
        assert Get(a.threads, tid.s) == Get(b.threads, tid.s);
      }
    }
    RecordsRoomy(lim, a, op, q);
    RecordsRoomy(lim, b, op, q);
    forall k | k != q ensures Get(Apply(lim, a, op).threads, k) == Get(Apply(lim, b, op).threads, k) {
      RecordsRoomy(lim, a, op, k);
      RecordsRoomy(lim, b, op, k);
    }
  }

  /** The thread itself along the calls: its own events, each with its trim. */
  lemma {:induction false} ThreadAlong(lim: Limits, s: Store, ops: seq<Op>, q: string)
    requires StoreOk(lim, s) && Has(s.threads, q) && Roomy(lim, s, ops) && Ordinary(lim, ops, q)
    requires Alive(lim, Get(s.threads, q).value, LiveOf(lim, s, ops, q))
    ensures var u := AfterCalls(lim, s, ops);
      StoreOk(lim, u) && u.generation == s.generation && u.at >= s.at
      && Get(u.threads, q) == Some(Events(lim, Get(s.threads, q).value, LiveOf(lim, s, ops, q)))
    ensures forall i :: 0 <= i < |LiveOf(lim, s, ops, q)| ==> LiveOf(lim, s, ops, q)[i].at > s.at
    decreases |ops|
  {
    hide Apply, StoreOk, MergeEvent, Trim, Names, Recorded, Room, Deleted, Params;
    if ops != [] {
      var op, next := ops[0], Apply(lim, s, ops[0]);
      assert ops[0] in ops;
      RecordsRoomy(lim, s, op, q);
      ApplyOk(lim, s, op);
      ThreadAlong(lim, next, ops[1..], q);
    }
  }

  /** Both orders give the thread's events the same numbers. */
  lemma {:induction false} SameEvents(lim: Limits, a: Store, b: Store, ops: seq<Op>, q: string)
    requires StoreOk(lim, a) && StoreOk(lim, b) && Apart(a, b, q) && 1 <= |q| <= 256 && Has(a.threads, q)
      && Has(b.threads, q)
    requires Roomy(lim, a, ops) && Roomy(lim, b, ops) && Ordinary(lim, ops, q)
    requires Alive(lim, Get(a.threads, q).value, LiveOf(lim, b, ops, q))
      && Alive(lim, Get(b.threads, q).value, LiveOf(lim, b, ops, q))
    ensures LiveOf(lim, a, ops, q) == LiveOf(lim, b, ops, q)
    ensures Apart(AfterCalls(lim, a, ops), AfterCalls(lim, b, ops), q)
    decreases |ops|
  {
    hide Apply, StoreOk, MergeEvent, Trim, Names, Recorded, Room, Deleted, Params, Apart;
    if ops != [] {
      var op := ops[0];
      NotTombstones(lim, a, b, ops, q);
      RecordsRoomy(lim, a, op, q);
      RecordsRoomy(lim, b, op, q);
      ApartStep(lim, a, b, op, q);
      ApplyOk(lim, a, op);
      ApplyOk(lim, b, op);
      ApartAt(a, b, q);
      SameEvents(lim, Apply(lim, a, op), Apply(lim, b, op), ops[1..], q);
    }
  }

  lemma ApartAt(a: Store, b: Store, q: string)
    requires Apart(a, b, q)
    ensures a.at == b.at
  {
  }

  lemma NotTombstones(lim: Limits, a: Store, b: Store, ops: seq<Op>, q: string)
    requires Has(a.threads, q) && Has(b.threads, q) && ops != []
    requires Alive(lim, Get(a.threads, q).value, LiveOf(lim, b, ops, q))
      && Alive(lim, Get(b.threads, q).value, LiveOf(lim, b, ops, q))
    ensures !IsTombstone(a.threads, Str(q)) && !IsTombstone(b.threads, Str(q))
  {
    hide Apply, LiveOf;
  }

  lemma {:induction false} AliveAtEnd(lim: Limits, t: Thread, events: seq<Live>)
    requires Alive(lim, t, events)
    ensures !Deleted(Events(lim, t, events))
    decreases |events|
  {
    hide MergeEvent, Trim, Deleted;
    if events != [] {
      AliveAtEnd(lim, WithEvent(lim, t, events[0]), events[1..]);
    }
  }

  // ---- late call, early call ----

  /** A snapshot of thread `q` that `hydrate` accepts in generation `g`. */
  predicate Reads(snapshot: Json, expected: Option<string>, g: string, q: string) {
    && snapshot.Obj? && Lookup(snapshot, "id") == Str(q) && 1 <= |q| <= 256
       && Or(Lookup(snapshot, "turns"), Arr([])).Arr?
    && (expected.Some? ==> expected.value == g)
  }

  function Head(snapshot: Json): Dict<string, Json> {
    Without(Fields(snapshot), "turns")
  }

  function History(snapshot: Json): seq<Json> {
    Items(Or(Lookup(snapshot, "turns"), Arr([])))
  }

  lemma {:induction false} HydratesRoomy(lim: Limits, s: Store, snapshot: Json, b: int, expected: Option<string>,
                                         q: string, k: string)
    requires StoreOk(lim, s) && Has(s.threads, q) && Reads(snapshot, expected, s.generation, q)
      && !Deleted(Get(s.threads, q).value)
    ensures var next := Apply(lim, s, OpHydrate(snapshot, b, expected));
      && next.at == s.at && next.generation == s.generation
      && Get(next.threads, k) == (if k == q
         then Some(HydrateThread(lim, Get(s.threads, q).value, Head(snapshot), History(snapshot), b))
                                  else Get(s.threads, k))
  {
    hide HydrateThread, Install, CapThreads;
    StoreOkDistinct(lim, s);
    var u := HydrateThread(lim, Get(s.threads, q).value, Head(snapshot), History(snapshot), b);
    InstallRoomy(lim, s.threads, q, u);
    InstallGet(s.threads, q, u, k);
  }

  /** Late hydrate equals early hydrate, for calls: a snapshot of a held thread, read at or before the current number,
      leaves the same numbers, the same other threads, and in its own thread the same metadata, provenance and turn
      order whether `hydrate` is called before or after any run of `record` calls, when no limit evicts anything and
      no event leaves the thread deleted. */
  lemma {:induction false} LateCallEqualsEarlyCall(lim: Limits, s: Store, ops: seq<Op>, snapshot: Json, b: int,
                                                   expected: Option<string>, q: string)
    requires StoreOk(lim, s) && Has(s.threads, q) && b <= s.at && Reads(snapshot, expected, s.generation, q)
      && Ordinary(lim, ops, q)
    requires Roomy(lim, s, ops) && Roomy(lim, Apply(lim, s, OpHydrate(snapshot, b, expected)), ops)
    requires var t, events, head, history := Get(s.threads, q).value, LiveOf(lim, s, ops, q), Head(snapshot),
      History(snapshot);
      && Alive(lim, t, events) && Alive(lim, HydrateThread(lim, t, head, history, b), events)
      && QuietEvents(lim, t, events) && QuietHydrate(lim, PureEvents(lim, t, events), head, history, b)
      && QuietHydrate(lim, t, head, history, b) && QuietEvents(lim, PureHydrate(lim, t, head, history, b), events)
    ensures var h := OpHydrate(snapshot, b, expected);
      var late, early := Apply(lim, AfterCalls(lim, s, ops), h), AfterCalls(lim, Apply(lim, s, h), ops);
      && Apart(late, early, q) && Has(late.threads, q) && Has(early.threads, q)
      && SameView(Get(late.threads, q).value, Get(early.threads, q).value)
  {
    hide Apply, StoreOk, Reads, Roomy, Ordinary, Alive, QuietEvents, QuietHydrate, SameView, HydrateThread,
      PureEvents, PureHydrate,
      AfterCalls, LiveOf, Events, Head, History, Apart, Deleted;
    var h := OpHydrate(snapshot, b, expected);
    var t, events, head, history := Get(s.threads, q).value, LiveOf(lim, s, ops, q), Head(snapshot), History(snapshot);
    var hydrated, after := Apply(lim, s, h), AfterCalls(lim, s, ops);
    AliveNow(lim, t, events);
    HydrateApart(lim, s, snapshot, b, expected, q);
    SameEvents(lim, hydrated, s, ops, q);
    ThreadAlong(lim, s, ops, q);
    ThreadAlong(lim, hydrated, ops, q);
    AliveAtEnd(lim, t, events);
    HydrateApart(lim, after, snapshot, b, expected, q);
    ApartMeets(Apply(lim, after, h), after, AfterCalls(lim, hydrated, ops), q);
    HeldIsOk(lim, s, q);
    LateHydrateEqualsEarlyHydrate(lim, q, t, events, head, history, b);
  }

  lemma AliveNow(lim: Limits, t: Thread, events: seq<Live>)
    requires Alive(lim, t, events)
    ensures !Deleted(t)
  {
  }

  lemma HeldIsOk(lim: Limits, s: Store, q: string)
    requires StoreOk(lim, s) && Has(s.threads, q)
    ensures ThreadOk(q, Get(s.threads, q).value)
  {
    assert StoredOk(lim, q, Get(s.threads, q).value);
  }

  lemma ApartMeets(a: Store, b: Store, c: Store, q: string)
    requires Apart(a, b, q) && Apart(c, b, q)
    ensures Apart(a, c, q)
  {
    forall k | k != q ensures Get(a.threads, k) == Get(c.threads, k) {
      assert Get(a.threads, k) == Get(b.threads, k);
    }
  }

  /** The call changes its own thread and nothing else. */
  lemma {:induction false} HydrateApart(lim: Limits, s: Store, snapshot: Json, b: int, expected: Option<string>,
                                        q: string)
    requires StoreOk(lim, s) && Has(s.threads, q) && Reads(snapshot, expected, s.generation, q)
      && !Deleted(Get(s.threads, q).value)
    ensures var next := Apply(lim, s, OpHydrate(snapshot, b, expected));
      && StoreOk(lim, next) && Apart(next, s, q) && next.at == s.at
      && Get(next.threads, q) == Some(HydrateThread(lim, Get(s.threads, q).value, Head(snapshot), History(snapshot), b))
    ensures 1 <= |q| <= 256
  {
    hide Apply, StoreOk, HydrateThread, Deleted;
    var next := Apply(lim, s, OpHydrate(snapshot, b, expected));
    ApplyOk(lim, s, OpHydrate(snapshot, b, expected));
    HydratesRoomy(lim, s, snapshot, b, expected, q, q);
    forall k | k != q ensures Get(next.threads, k) == Get(s.threads, k) {
      HydratesRoomy(lim, s, snapshot, b, expected, q, k);
    }
  }
}
