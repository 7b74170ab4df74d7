/** Which generation of the feed a store belongs to and whether it is connected, said over the calls
    (ccc_server/codex_conversation.py:40-58). */
module StoreSession {
  import opened OrderedDict
  import opened Json
  import opened Clipping
  import opened Conversation
  import opened StoreOps
  import opened StoreInvariant
  import opened StoreHistory

  /** The generation of the last connect whose name has 1 to 128 characters. */
  function GenerationOf(ops: seq<Op>): string {
    if ops == [] then ""
    else
      match ops[|ops| - 1]
      case OpConnect(g) => if 1 <= |g| <= 128 then g else GenerationOf(ops[..|ops| - 1])
      case _ => GenerationOf(ops[..|ops| - 1])
  }

  /** Connected since the last such connect, and not disconnected by name. */
  predicate ConnectedAfter(ops: seq<Op>) {
    ops != []
    && match ops[|ops| - 1]
       case OpConnect(g) => 1 <= |g| <= 128 || ConnectedAfter(ops[..|ops| - 1])
       case OpDisconnect(g) => g != GenerationOf(ops[..|ops| - 1]) && ConnectedAfter(ops[..|ops| - 1])
       case _ => ConnectedAfter(ops[..|ops| - 1])
  }

  /** A connect to another generation leaves nothing of the one before. */
  lemma {:induction false} ConnectForgets(lim: Limits, s: Store, g: string)
    requires 1 <= |g| <= 128
    ensures var u := Apply(lim, s, OpConnect(g));
      if g == s.generation then u == s.(connected := true)
      else u.events == [] && u.threads == [] && u.at == 0 && u.generation == g && u.connected
  {
  }

  /** A snapshot read in another generation, or of a deleted thread, is refused and changes nothing; a malformed one
      raises. Any other is merged, and its thread is held afterwards unless the thread cap drops it. */
  lemma {:induction false} SnapshotAccepted(lim: Limits, s: Store, snapshot: Json, before: int,
                                            expected: Option<string>)
    requires Distinct(s.threads)
    ensures var id, turns := Lookup(snapshot, "id"), Lookup(snapshot, "turns");
      var named := id.Str? && 1 <= |id.s| <= 256;
      var deleted := named && Has(s.threads, id.s) && Deleted(Get(s.threads, id.s).value);
      match Hydrate(lim, s, snapshot, before, expected)
      case Invalid => !snapshot.Obj? || !named || (Truthy(turns) && !turns.Arr?)
      case Done(accepted, next) =>
        && snapshot.Obj? && named && (!Truthy(turns) || turns.Arr?)
        && (accepted <==> (expected.None? || expected.value == s.generation) && !deleted)
        && (!accepted ==> next == s)
        && next.events == s.events && next.at == s.at && next.generation == s.generation
        && forall tid :: tid != id.s && Has(next.threads, tid) ==> Get(next.threads, tid) == Get(s.threads, tid)
  {
    hide Deleted, HydrateThread, CapThreads, Install, ThreadOrNew;
    var id, history := Lookup(snapshot, "id"), Or(Lookup(snapshot, "turns"), Arr([]));
    if snapshot.Obj? && IsId(id) && history.Arr? {
      var t := HydrateThread(lim, ThreadOrNew(s.threads, id.s), Without(snapshot.fields, "turns"), history.items,
        before);
      forall tid | tid != id.s && Has(CapThreads(lim, Install(s.threads, id.s, t)), tid)
        ensures Get(CapThreads(lim, Install(s.threads, id.s, t)), tid) == Get(s.threads, tid) {
        CapInstallGet(lim, s.threads, id.s, t, tid);
      }
    }
  }

  /** Over every run of calls. */
  lemma {:induction false} SessionIsLastConnect(lim: Limits, ops: seq<Op>)
    ensures var s := StoreInvariant.Run(lim, ops);
      s.generation == GenerationOf(ops) && (s.connected <==> ConnectedAfter(ops))
    decreases |ops|
  {
    hide Bounded, HydrateThread, CapThreads, Install, RecordParams;
    if ops != [] {
      SessionIsLastConnect(lim, ops[..|ops| - 1]);
      RecordsSameSession(lim, StoreInvariant.Run(lim, ops[..|ops| - 1]), ops[|ops| - 1]);
    }
  }

  lemma {:induction false} RecordsSameSession(lim: Limits, s: Store, op: Op)
    ensures op.OpRecord? ==>
      Apply(lim, s, op).generation == s.generation && Apply(lim, s, op).connected == s.connected
  {
    hide Bounded, ThreadIdOf, RecordThread, Bury, Push, NotOf;
  }
}
