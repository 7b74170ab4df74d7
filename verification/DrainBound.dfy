/** After `set_drain(True)` commits at most one further item enters `dispatching` before drain is
    lifted: the one whose dispatcher is already past its check inside the lock
    (worker_engines.py:151-152, 319-329; control_plane.py:278-286; ccc_worker.py:128-142). */
module DrainBound {
  import opened OrderedDict
  import opened Sequences
  import opened WorkLedger
  import opened EngineHost
  import opened NeverReplay

  predicate IsDispatching(t: Table, id: string) {
    id in t.items && t.items[id].state.Dispatching?
  }

  /** No row becomes dispatching. */
  ghost predicate NoEntry(t: Table, u: Table) {
    forall id :: IsDispatching(u, id) ==> IsDispatching(t, id)
  }

  /** The dispatcher that read drain as off and has not claimed its item yet: 1 if there is one. */
  function PastCheck(h: Host): nat {
    if h.lock.Some? && h.lock.value < |h.threads| && h.threads[h.lock.value].SawOpen? then 1 else 0
  }

  /** Items that enter dispatching in one step. */
  ghost function Entries(h: Host, a: Action): set<string> {
    set id | id in Step(h, a).table.items && IsDispatching(Step(h, a).table, id) && !IsDispatching(h.table, id)
  }

  lemma RecoverNoEntry(t: Table, epoch: string, now: int)
    requires LedgerOk(t)
    ensures NoEntry(t, Recover(t, epoch, now))
  {
    hide Recover, Replay, LegalLog, Forest, KeysUnique, NoRepeats, ItemOk;
    RecoverOk(t, epoch, now);
  }

  /** Only a claim can make an item enter dispatching. */
  lemma OnlyClaimsEnter(h: Host, a: Action)
    requires HostOk(h) && !a.AClaim?
    ensures NoEntry(h.table, Step(h, a).table)
  {
    hide Recover, Submit, HostOk, NoEntry, Move, DoSettle, DoTrack, DoRetire, DoResolve, SetDrain;
    Unmoved(h.table);
    match a
    case ASubmit(r, execute, now) => SubmitNoEntry(h.table, r, now);
    case ASettle(i, now) => SettleNoEntry(h, i, now);
    case AReclaim(i, now) => ReclaimNoEntry(h, i, now);
    case ATrack(i, what, now) => TrackNoEntry(h, i, what, now);
    case ARetire(i, now) => RetireNoEntry(h, i, now);
    case AResolve(i, now) => ResolveNoEntry(h, i, now);
    case ARestart(epoch, now) => HostLedger(h); RecoverNoEntry(h.table, epoch, now);
    case _ => OtherNoEntry(h, a);
  }

  lemma SubmitNoEntry(t: Table, r: Request, now: int)
    ensures Submit(t, r, now).Ok? ==> NoEntry(t, Submit(t, r, now).value.0)
  {
    hide KeyTaken, Blank;
  }

  lemma MoveNoEntry(h: Host)
    ensures forall id: string, to: WorkState, lease: Option<int>, now: int ::
      !to.Dispatching? && Move(h, id, to, lease, now).Ok? ==> NoEntry(h.table, Move(h, id, to, lease, now).value)
  {
  }

  lemma SettleNoEntry(h: Host, i: nat, now: int)
    ensures NoEntry(h.table, DoSettle(h, i, now).table)
  {
    hide Move, NoEntry;
    MoveNoEntry(h);
    Unmoved(h.table);
  }

  lemma ReclaimNoEntry(h: Host, i: nat, now: int)
    ensures NoEntry(h.table, Step(h, AReclaim(i, now)).table)
  {
    hide Move, NoEntry;
    MoveNoEntry(h);
    Unmoved(h.table);
  }

  lemma TrackNoEntry(h: Host, i: nat, what: Track, now: int)
    ensures NoEntry(h.table, DoTrack(h, i, what, now).table)
  {
    hide Move;
    MoveNoEntry(h);
  }

  lemma RetireNoEntry(h: Host, i: nat, now: int)
    ensures NoEntry(h.table, DoRetire(h, i, now).table)
  {
  }

  lemma ResolveNoEntry(h: Host, i: nat, now: int)
    ensures NoEntry(h.table, DoResolve(h, i, now).table)
  {
    hide Move, NoEntry;
    MoveNoEntry(h);
    Unmoved(h.table);
  }

  lemma Unmoved(t: Table)
    ensures NoEntry(t, t)
  {
  }

  lemma RenewNoEntry(t: Table)
    ensures forall id, owner, lease, now ::
      RenewLease(t, id, owner, lease, now).Ok? ==> NoEntry(t, RenewLease(t, id, owner, lease, now).value)
  {
  }

  lemma OtherNoEntry(h: Host, a: Action)
    requires !a.ASubmit? && !a.AClaim? && !a.ASettle? && !a.AReclaim? && !a.ATrack? && !a.ARetire? && !a.AResolve?
      && !a.ARestart?
    ensures NoEntry(h.table, Step(h, a).table)
  {
    hide NoEntry;
    Unmoved(h.table);
    Undrained(h.table);
    RenewNoEntry(h.table);
  }

  lemma Undrained(t: Table)
    ensures forall b, reason, now :: NoEntry(t, SetDrain(t, b, reason, now))
  {
  }

  /** While draining no dispatcher gets past its check. */
  lemma NoNewDispatcher(h: Host, a: Action)
    requires HostOk(h) && h.table.drain.enabled && !a.AClaim?
    ensures PastCheck(Step(h, a)) <= PastCheck(h)
  {
    hide HostOk, Step;
    if Dispatches(a) {
      DispatchKeepsCheck(h, a);
    } else {
      OthersKeepCheck(h, a);
    }
  }

  /** The calls of a dispatcher up to the engine's answer. */
  predicate Dispatches(a: Action) {
    a.AReadDrain? || a.AAcquire? || a.AStartScan? || a.AListQueued? || a.ANext? || a.AReadFresh? || a.AAbandon?
      || a.ASend?
  }

  lemma DispatchKeepsCheck(h: Host, a: Action)
    requires HostOk(h) && h.table.drain.enabled && Dispatches(a)
    ensures PastCheck(Step(h, a)) <= PastCheck(h)
  {
    hide LedgerOk, SeenOk, PaidOk, RetriesOk;
    hide DoSubmit, DoClaim, DoSettle, DoReconcile, DoReclaim, DoTrack, DoListStale, DoRetire, DoOperator, DoResolve,
      DoRenew, DoRestart;
  }

  lemma OthersKeepCheck(h: Host, a: Action)
    requires HostOk(h) && h.table.drain.enabled && !a.AClaim? && !Dispatches(a)
    ensures PastCheck(Step(h, a)) <= PastCheck(h)
  {
    hide Recover, Submit, Move, Transition, RenewLease, SetDrain, LedgerOk, SeenOk, PaidOk, RetriesOk;
    hide DoReadDrain, DoAcquire, DoStartScan, DoListQueued, DoNext, DoReadFresh, DoAbandon, DoSend, DoClaim;
  }

  lemma ClaimEnters(h: Host, i: nat, now: int)
    requires HostOk(h) && h.table.drain.enabled
    ensures |Entries(h, AClaim(i, now))| + PastCheck(Step(h, AClaim(i, now))) <= PastCheck(h)
  {
    hide LedgerOk, PaidOk, RetriesOk, Transition;
    var a := AClaim(i, now);
    if At(h, i) && h.threads[i].SawOpen? {
      var id := h.threads[i].id;
      SeenFact(h, i);
      assert Holds(h.threads[i]) && h.lock == Some(i);
      ClaimMoves(h, id, now);
      SmallSet(Entries(h, a), id);
    } else {
      assert Entries(h, a) == {};
    }
  }

  lemma SmallSet(s: set<string>, id: string)
    requires s <= {id}
    ensures |s| <= 1
  {
    if id in s {
      assert s == {id};
    } else {
      assert s == {};
    }
  }

  lemma ClaimMoves(h: Host, id: string, now: int)
    ensures var m := Move(h, id, Dispatching, Some(LEASE), now);
      m.Ok? ==> forall k :: k != id && IsDispatching(m.value, k) ==> IsDispatching(h.table, k)
  {
  }

  /** Drain is on before every one of these actions. */
  predicate Draining(h: Host, actions: seq<Action>)
    decreases |actions|
  {
    actions == [] || (h.table.drain.enabled && Draining(Step(h, actions[0]), actions[1..]))
  }

  /** How many times an item enters dispatching along the actions. */
  ghost function TotalEntries(h: Host, actions: seq<Action>): nat
    decreases |actions|
  {
    if actions == [] then 0 else |Entries(h, actions[0])| + TotalEntries(Step(h, actions[0]), actions[1..])
  }

  lemma {:induction false} DrainingBound(h: Host, actions: seq<Action>)
    requires HostOk(h) && Draining(h, actions)
    ensures TotalEntries(h, actions) <= PastCheck(h)
    decreases |actions|
  {
    hide HostOk, Step;
    if actions != [] {
      var a := actions[0];
      StepOk(h, a);
      DrainingBound(Step(h, a), actions[1..]);
      if a.AClaim? {
        ClaimEnters(h, a.i, a.now);
      } else {
        OnlyClaimsEnter(h, a);
        NoNewDispatcher(h, a);
        assert Entries(h, a) == {};
      }
    }
  }

  /** From any reachable state, while drain stays on, at most one item enters dispatching, and none if no
      dispatcher was past its check when drain was set. Crashes and restarts in between do not help. */
  lemma DrainStopsDispatch(epoch: string, before: seq<Action>, reason: string, now: int, after: seq<Action>)
    requires Draining(Step(EngineHost.Run(epoch, before), ASetDrain(true, reason, now)), after)
    ensures var h := EngineHost.Run(epoch, before);
      && TotalEntries(Step(h, ASetDrain(true, reason, now)), after) <= PastCheck(h) <= 1
  {
    hide HostOk, Entries, EngineHost.Run, TotalEntries;
    var h := EngineHost.Run(epoch, before);
    RunOk(epoch, before);
    StepOk(h, ASetDrain(true, reason, now));
    DrainingBound(Step(h, ASetDrain(true, reason, now)), after);
  }

  // ---- the way to the engine, and where draining ends it ----

  /** Reading drain as on sends a thread back: it ends, or goes on with the rest of its queue, and gives up a lock it
      took for this item alone. Nothing is claimed or called. */
  lemma {:induction false} DrainTurnsBack(h: Host, i: nat)
    requires At(h, i) && h.table.drain.enabled
    requires h.threads[i].Created? || h.threads[i].Requeued? || h.threads[i].SawQueued?
    ensures var g := DoReadDrain(h, i);
      && g.table == h.table && g.calls == h.calls
      && match h.threads[i]
         case SawQueued(_, Some(todo)) => g.threads == h.threads[i := Scanning(todo)] && g.lock == h.lock
         case SawQueued(_, None) => g.threads == h.threads[i := Finished] && g.lock == None
         case _ => g.threads == h.threads[i := Finished] && g.lock == h.lock
  {
  }

  /** While drain is on, the queue is not scanned at all. */
  lemma {:induction false} DrainStopsScans(h: Host)
    requires h.table.drain.enabled
    ensures DoStartScan(h) == h
  {
  }

  /** With drain off and the lock free, a submitted or retried item that is still queued reaches its engine: one more
      attempt, one more call, and the lock is free again. */
  lemma {:induction false} DispatchReachesEngine(h: Host, i: nat, id: string, reply: Reply, now: int)
    requires At(h, i) && h.threads[i] in {Created(id), Requeued(id)}
    requires h.lock == None && !h.table.drain.enabled && id in h.table.items && h.table.items[id].state == Queued
    ensures var g := DoSend(DoClaim(DoReadDrain(DoReadFresh(DoAcquire(DoReadDrain(h, i), i), i), i), i, now), i, reply);
      && g.threads == h.threads[i := Answered(id, None, reply)] && g.lock == None
      && IsDispatching(g.table, id) && g.table.items[id].attempt == h.table.items[id].attempt + 1
      && g.table.items[id].epoch == h.epoch
      && Count(g.calls, id) == Count(h.calls, id) + 1
  {
    PassesChecks(h, i, id);
    var h4 := h.(threads := h.threads[i := SawOpen(id, None)], lock := Some(i));
    hide DoReadDrain, DoAcquire, DoReadFresh;
    var h5 := DoClaim(h4, i, now);
    assert h5.threads == h.threads[i := Claimed(id, None)] && h5.lock == None && h5.calls == h.calls;
  }

  lemma {:induction false} PassesChecks(h: Host, i: nat, id: string)
    requires At(h, i) && h.threads[i] in {Created(id), Requeued(id)}
    requires h.lock == None && !h.table.drain.enabled && id in h.table.items && h.table.items[id].state == Queued
    ensures DoReadDrain(DoReadFresh(DoAcquire(DoReadDrain(h, i), i), i), i)
      == h.(threads := h.threads[i := SawOpen(id, None)], lock := Some(i))
  {
    var h1 := DoReadDrain(h, i);
    assert h1 == h.(threads := h.threads[i := Wants(id)]);
    var h2 := DoAcquire(h1, i);
    assert h2 == h.(threads := h.threads[i := Entered(id, None)], lock := Some(i));
    var h3 := DoReadFresh(h2, i);
    assert h3 == h.(threads := h.threads[i := SawQueued(id, None)], lock := Some(i));
  }

  /** Work claimed and then abandoned before its engine was called stays dispatching, with its attempt spent; the
      lock is not left behind. */
  lemma {:induction false} AbandonedStaysDispatching(h: Host, i: nat)
    requires At(h, i) && h.threads[i].Claimed?
    ensures var g := DoAbandon(h, i);
      && g.table == h.table && g.calls == h.calls && g.threads == h.threads[i := Finished]
      && g.lock == if h.threads[i].outer.Some? then None else h.lock
  {
  }
}
