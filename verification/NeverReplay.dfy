/** The safety of `EngineHost` over every interleaving, crash and restart included: a turn is never
    sent to its engine twice without an operator's retry, and draining stops dispatch. */
module NeverReplay {
  import opened OrderedDict
  import opened Sequences
  import opened WorkLedger
  import opened EngineHost

  predicate Holds(pc: Pc) {
    pc.Scanning? || pc.Entered? || pc.SawQueued? || pc.SawOpen?
    || ((pc.Claimed? || pc.Answered?) && pc.outer.Some?)
  }

  /** One thread at most is inside the dispatch lock, and the lock knows which. */
  ghost predicate LockOk(threads: seq<Pc>, lock: Option<nat>) {
    && (forall i :: 0 <= i < |threads| ==> (Holds(threads[i]) <==> lock == Some(i)))
    && (lock.Some? ==> lock.value < |threads|)
  }

  predicate Waiting(t: Table, id: string) {
    id in t.items && (t.items[id].state.Queued? || t.items[id].state.Cancelled?)
  }

  /** Between reading a queued row and claiming it, nobody else can have dispatched it: it is still
      queued, or a stale reconciler or operator cancelled it, and then the claim is refused. */
  ghost predicate SeenOk(threads: seq<Pc>, t: Table) {
    forall i :: 0 <= i < |threads| && (threads[i].SawQueued? || threads[i].SawOpen?) ==> Waiting(t, threads[i].id)
  }

  function Weight(pc: Pc, id: string): nat {
    if pc.Claimed? && pc.id == id then 1 else 0
  }

  /** How many threads have claimed the item and not called its engine yet. */
  function Pending(threads: seq<Pc>, id: string): nat {
    if threads == [] then 0 else Weight(threads[0], id) + Pending(threads[1..], id)
  }

  function Attempts(t: Table, id: string): nat {
    if id in t.items then t.items[id].attempt else 0
  }

  /** Every call, made or about to be made, was paid for by an attempt. */
  ghost predicate PaidOk(threads: seq<Pc>, calls: map<string, nat>, t: Table) {
    forall id :: Count(calls, id) + Pending(threads, id) <= Attempts(t, id)
  }

  function Requeues(log: seq<Entry>, id: string): nat {
    match Replay(log, id) case Absent => 0 case Trail(_, _, n) => n
  }

  ghost predicate RetriesOk(t: Table, retries: map<string, nat>) {
    forall id :: Requeues(t.log, id) <= Count(retries, id)
  }

  ghost predicate HostOk(h: Host) {
    && LedgerOk(h.table)
    && LockOk(h.threads, h.lock)
    && SeenOk(h.threads, h.table)
    && PaidOk(h.threads, h.calls, h.table)
    && RetriesOk(h.table, h.retries)
  }

  // ---- counting threads ----

  lemma {:induction false} PendingUpdate(threads: seq<Pc>, i: nat, pc: Pc, id: string)
    requires i < |threads|
    ensures Pending(threads[i := pc], id) == Pending(threads, id) - Weight(threads[i], id) + Weight(pc, id)
  {
    if i == 0 {
      assert threads[0 := pc][1..] == threads[1..];
    } else {
      assert threads[i := pc][1..] == threads[1..][i - 1 := pc];
      PendingUpdate(threads[1..], i - 1, pc, id);
    }
  }

  lemma {:induction false} PendingAppend(threads: seq<Pc>, pc: Pc, id: string)
    ensures Pending(threads + [pc], id) == Pending(threads, id) + Weight(pc, id)
  {
    if threads == [] {
      assert [] + [pc] == [pc] && [pc][1..] == [];
    } else {
      assert (threads + [pc])[1..] == threads[1..] + [pc];
      PendingAppend(threads[1..], pc, id);
    }
  }

  // ---- what a ledger call may do to the facts threads rely on ----

  /** Rows are never lost, attempts never drop, waiting rows keep waiting, and only `id` can be requeued. */
  ghost predicate Gentle(t: Table, u: Table, requeued: Option<string>) {
    && LedgerOk(u)
    && (forall id :: Attempts(t, id) <= Attempts(u, id))
    && (forall id :: Waiting(t, id) ==> Waiting(u, id))
    && (forall id :: Requeues(u.log, id) <= Requeues(t.log, id) + if requeued == Some(id) then 1 else 0)
  }

  lemma MoveIsGentle(t: Table, id: string, to: WorkState, owner: Option<string>, lease: Option<int>, now: int)
    requires LedgerOk(t) && Transition(t, id, to, owner, lease, None, None, now).Ok? && !to.Dispatching?
    ensures Gentle(t, Transition(t, id, to, owner, lease, None, None, now).value, if to.Queued? then Some(id) else None)
  {
    hide LedgerOk, Replay;
    var u := Transition(t, id, to, owner, lease, None, None, now).value;
    TransitionOk(t, id, to, owner, lease, None, None, now);
    forall k ensures Requeues(u.log, k) <= Requeues(t.log, k) + if to.Queued? && k == id then 1 else 0 {
      ReplayAppend(t.log, Moved(id, to), k);
    }
  }

  lemma SubmitIsGentle(t: Table, r: Request, now: int)
    requires LedgerOk(t) && Submit(t, r, now).Ok?
    ensures Gentle(t, Submit(t, r, now).value.0, None)
  {
    hide Replay, Blank, KeyTaken, LegalLog, Forest, KeysUnique, NoRepeats;
    var u := Submit(t, r, now).value.0;
    SubmitOk(t, r, now);
    forall k ensures Requeues(u.log, k) <= Requeues(t.log, k) {
      ReplayAppend(t.log, Submitted(r.id), k);
    }
  }

  lemma RenewIsGentle(t: Table, id: string, epoch: string, lease: int, now: int)
    requires LedgerOk(t) && RenewLease(t, id, epoch, lease, now).Ok?
    ensures Gentle(t, RenewLease(t, id, epoch, lease, now).value, None)
  {
    hide LedgerOk, Replay;
    RenewOk(t, id, epoch, lease, now);
  }

  lemma RecoverIsGentle(t: Table, epoch: string, now: int)
    requires LedgerOk(t)
    ensures Gentle(t, Recover(t, epoch, now), None)
  {
    hide Recover, Replay, LegalLog, Forest, KeysUnique, NoRepeats, ItemOk;
    RecoverOk(t, epoch, now);
    var u := Recover(t, epoch, now);
    forall k ensures Requeues(u.log, k) <= Requeues(t.log, k) {
      if k !in t.items {
        assert Replay(u.log, k).Absent?;
      }
    }
  }

  lemma DrainIsGentle(t: Table, enabled: bool, reason: string, now: int)
    requires LedgerOk(t)
    ensures Gentle(t, SetDrain(t, enabled, reason, now), None)
  {
    assert SetDrain(t, enabled, reason, now).log == t.log;
  }

  // ---- frames: a step that only moves threads, or only makes a gentle ledger call ----

  lemma TableFrame(h: Host, u: Table)
    requires HostOk(h) && Gentle(h.table, u, None)
    ensures HostOk(h.(table := u))
  {
    hide LedgerOk, Requeues, Waiting, Attempts, Pending;
    forall id ensures Count(h.calls, id) + Pending(h.threads, id) <= Attempts(u, id) {
      assert Count(h.calls, id) + Pending(h.threads, id) <= Attempts(h.table, id) <= Attempts(u, id);
    }
    forall id ensures Requeues(u.log, id) <= Count(h.retries, id) {
      assert Requeues(h.table.log, id) <= Count(h.retries, id);
    }
  }

  /** A thread outside the lock moves to another place outside it. */
  lemma MoveOutside(h: Host, i: nat, pc: Pc)
    requires HostOk(h) && At(h, i) && !Holds(h.threads[i]) && !Holds(pc) && !pc.Claimed?
    ensures HostOk(Go(h, i, pc))
  {
    hide LedgerOk, Requeues, Waiting, Attempts;
    forall id ensures Pending(h.threads[i := pc], id) <= Pending(h.threads, id) {
      PendingUpdate(h.threads, i, pc, id);
    }
    PaidLess(h, Go(h, i, pc));
  }

  /** The lock holder moves to another place inside the lock. */
  lemma MoveInside(h: Host, i: nat, pc: Pc)
    requires HostOk(h) && At(h, i) && Holds(h.threads[i]) && Holds(pc) && !pc.Claimed?
    requires pc.SawQueued? || pc.SawOpen? ==> Waiting(h.table, pc.id)
    ensures HostOk(Go(h, i, pc))
  {
    hide LedgerOk, Requeues, Waiting, Attempts;
    forall id ensures Pending(h.threads[i := pc], id) <= Pending(h.threads, id) {
      PendingUpdate(h.threads, i, pc, id);
    }
    PaidLess(h, Go(h, i, pc));
  }

  /** The lock holder leaves the lock. */
  lemma MoveOut(h: Host, i: nat, pc: Pc)
    requires HostOk(h) && At(h, i) && Holds(h.threads[i]) && !Holds(pc) && !pc.Claimed?
    ensures HostOk(Go(h, i, pc).(lock := None))
  {
    hide LedgerOk, Requeues, Waiting, Attempts;
    forall id ensures Pending(h.threads[i := pc], id) <= Pending(h.threads, id) {
      PendingUpdate(h.threads, i, pc, id);
    }
    PaidLess(h, Go(h, i, pc));
  }

  /** A thread takes the free lock. */
  lemma MoveIn(h: Host, i: nat, pc: Pc)
    requires HostOk(h) && At(h, i) && h.lock.None? && Holds(pc) && (pc.Scanning? || pc.Entered?)
    ensures HostOk(Go(h, i, pc).(lock := Some(i)))
  {
    hide LedgerOk, Requeues, Waiting, Attempts;
    forall id ensures Pending(h.threads[i := pc], id) <= Pending(h.threads, id) {
      PendingUpdate(h.threads, i, pc, id);
    }
    PaidLess(h, Go(h, i, pc));
  }

  lemma PaidLess(h: Host, g: Host)
    requires PaidOk(h.threads, h.calls, h.table) && g.calls == h.calls && g.table == h.table
    requires forall id :: Pending(g.threads, id) <= Pending(h.threads, id)
    ensures PaidOk(g.threads, g.calls, g.table)
  {
    hide Pending, Attempts;
    forall id ensures Count(g.calls, id) + Pending(g.threads, id) <= Attempts(g.table, id) {
      assert Count(h.calls, id) + Pending(h.threads, id) <= Attempts(h.table, id);
    }
  }

  lemma SpawnOk(h: Host, pc: Pc)
    requires HostOk(h) && !Holds(pc) && !pc.Claimed?
    ensures HostOk(Spawn(h, pc))
  {
    hide LedgerOk, Requeues, Waiting, Attempts;
    forall id ensures Pending(h.threads + [pc], id) <= Pending(h.threads, id) {
      PendingAppend(h.threads, pc, id);
    }
    PaidLess(h, Spawn(h, pc));
  }

  // ---- each action ----

  lemma SubmitStep(h: Host, r: Request, execute: bool, now: int)
    requires HostOk(h)
    ensures HostOk(DoSubmit(h, r, execute, now))
  {
    hide HostOk, Gentle, Submit;
    match Submit(h.table, r, now)
    case Err(_) =>
    case Ok((t, created)) =>
      HostLedger(h);
      SubmitIsGentle(h.table, r, now);
      TableFrame(h, t);
      SpawnOk(h.(table := t), Created(r.id));
  }

  lemma HostLedger(h: Host)
    requires HostOk(h)
    ensures LedgerOk(h.table)
  {
  }

  lemma ReturnOk(h: Host, i: nat, outer: Option<seq<string>>)
    requires HostOk(h) && At(h, i) && Holds(h.threads[i])
    ensures HostOk(Return(Leave(h, outer), i, outer))
  {
    hide HostOk;
    match outer
    case None =>
      MoveOut(h, i, Finished);
      assert Return(Leave(h, outer), i, outer) == Go(h, i, Finished).(lock := None);
    case Some(todo) => MoveInside(h, i, Scanning(todo));
  }

  lemma ReadDrainStep(h: Host, i: nat)
    requires HostOk(h)
    ensures HostOk(DoReadDrain(h, i))
  {
    hide LedgerOk, LockOk, PaidOk, RetriesOk, HostOk;
    if At(h, i) {
      match h.threads[i]
      case Created(id) => MoveOutside(h, i, if h.table.drain.enabled then Finished else Wants(id));
      case Requeued(id) => MoveOutside(h, i, if h.table.drain.enabled then Finished else Wants(id));
      case SawQueued(id, outer) =>
        if h.table.drain.enabled {
          ReturnOk(h, i, outer);
        } else {
          SeenFact(h, i);
          MoveInside(h, i, SawOpen(id, outer));
        }
      case _ =>
    }
  }

  lemma SeenFact(h: Host, i: nat)
    requires HostOk(h) && At(h, i) && (h.threads[i].SawQueued? || h.threads[i].SawOpen?)
    ensures Waiting(h.table, h.threads[i].id)
  {
  }

  lemma LockSteps(h: Host, i: nat, todo: seq<string>)
    requires HostOk(h)
    ensures HostOk(DoAcquire(h, i)) && HostOk(DoStartScan(h)) && HostOk(DoListQueued(h, i, todo))
      && HostOk(DoNext(h, i))
  {
    hide HostOk;
    if h.lock.None? {
      SpawnOk(h, Finished);
      var g := Spawn(h, Finished);
      MoveIn(g, |h.threads|, Scanning([]));
      assert Go(g, |h.threads|, Scanning([])).threads == h.threads + [Scanning([])];
    }
    if At(h, i) {
      if h.threads[i].Wants? && h.lock.None? {
        MoveIn(h, i, Entered(h.threads[i].id, None));
      }
      if h.threads[i].Scanning? {
        var held := h.threads[i].todo;
        MoveInside(h, i, Scanning(todo));
        if held == [] {
          MoveOut(h, i, Finished);
        } else {
          MoveInside(h, i, Entered(held[0], Some(held[1..])));
        }
      }
    }
  }

  lemma ReadFreshStep(h: Host, i: nat)
    requires HostOk(h)
    ensures HostOk(DoReadFresh(h, i))
  {
    hide HostOk;
    if At(h, i) && h.threads[i].Entered? {
      var (id, outer) := (h.threads[i].id, h.threads[i].outer);
      if id in h.table.items && h.table.items[id].state.Queued? {
        MoveInside(h, i, SawQueued(id, outer));
      } else {
        ReturnOk(h, i, outer);
      }
    }
  }

  /** The claim: the row is queued, and then one attempt pays for one pending call; or it was cancelled
      meanwhile, and the ledger refuses. */
  lemma ClaimTable(t: Table, id: string, epoch: string, now: int)
    requires LedgerOk(t) && Waiting(t, id)
    ensures var m := Transition(t, id, Dispatching, Some(epoch), Some(LEASE), None, None, now);
      && (m.Ok? <==> t.items[id].state.Queued?)
      && (m.Ok? ==>
            && LedgerOk(m.value)
            && (forall k :: Attempts(m.value, k) == Attempts(t, k) + if k == id then 1 else 0)
            && (forall k :: k != id && Waiting(t, k) ==> Waiting(m.value, k))
            && (forall k :: Requeues(m.value.log, k) == Requeues(t.log, k)))
  {
    hide LedgerOk, Replay;
    var m := Transition(t, id, Dispatching, Some(epoch), Some(LEASE), None, None, now);
    if m.Ok? {
      TransitionOk(t, id, Dispatching, Some(epoch), Some(LEASE), None, None, now);
      forall k ensures Requeues(m.value.log, k) == Requeues(t.log, k) {
        ReplayAppend(t.log, Moved(id, Dispatching), k);
      }
    }
  }

  lemma ClaimPays(h: Host, i: nat, t: Table)
    requires HostOk(h) && At(h, i) && h.threads[i].SawOpen?
    requires forall k :: Attempts(t, k) == Attempts(h.table, k) + if k == h.threads[i].id then 1 else 0
    ensures PaidOk(h.threads[i := Claimed(h.threads[i].id, h.threads[i].outer)], h.calls, t)
  {
    hide LedgerOk, LockOk, RetriesOk, SeenOk, Attempts, Pending;
    var after := h.threads[i := Claimed(h.threads[i].id, h.threads[i].outer)];
    forall k ensures Count(h.calls, k) + Pending(after, k) <= Attempts(t, k) {
      PendingUpdate(h.threads, i, Claimed(h.threads[i].id, h.threads[i].outer), k);
      assert Count(h.calls, k) + Pending(h.threads, k) <= Attempts(h.table, k);
    }
  }

  lemma ClaimLocks(h: Host, i: nat)
    requires HostOk(h) && At(h, i) && h.threads[i].SawOpen?
    ensures var outer := h.threads[i].outer;
      LockOk(h.threads[i := Claimed(h.threads[i].id, outer)], if outer.None? then None else h.lock)
    ensures forall j :: 0 <= j < |h.threads| && j != i ==> !Holds(h.threads[j])
  {
    hide LedgerOk, PaidOk, RetriesOk, SeenOk;
  }

  lemma ClaimStep(h: Host, i: nat, now: int)
    requires HostOk(h)
    ensures HostOk(DoClaim(h, i, now))
  {
    hide LedgerOk, Replay, Attempts, Waiting, Pending, Requeues, Transition, PaidOk, LockOk;
    if At(h, i) && h.threads[i].SawOpen? {
      var (id, outer) := (h.threads[i].id, h.threads[i].outer);
      SeenFact(h, i);
      ClaimTable(h.table, id, h.epoch, now);
      match Move(h, id, Dispatching, Some(LEASE), now)
      case Err(_) =>
        MoveOut(h, i, Finished);
        assert DoClaim(h, i, now) == Go(h, i, Finished).(lock := None);
      case Ok(t) =>
        ClaimPays(h, i, t);
        ClaimLocks(h, i);
        forall k ensures Requeues(t.log, k) <= Count(h.retries, k) {
          assert Requeues(h.table.log, k) <= Count(h.retries, k);
        }
    }
  }

  lemma AbandonStep(h: Host, i: nat)
    requires HostOk(h)
    ensures HostOk(DoAbandon(h, i))
  {
    hide HostOk;
    if At(h, i) && h.threads[i].Claimed? {
      if h.threads[i].outer.Some? {
        MoveOut(h, i, Finished);
      } else {
        MoveOutside(h, i, Finished);
      }
    }
  }

  /** The engine call turns a pending call into a made one. */
  lemma SendStep(h: Host, i: nat, reply: Reply)
    requires HostOk(h)
    ensures HostOk(DoSend(h, i, reply))
  {
    hide LedgerOk, RetriesOk, Waiting, Attempts, Pending;
    if At(h, i) && h.threads[i].Claimed? {
      var g := DoSend(h, i, reply);
      var id := h.threads[i].id;
      forall k ensures Count(g.calls, k) + Pending(g.threads, k) <= Attempts(g.table, k) {
        PendingUpdate(h.threads, i, Answered(id, h.threads[i].outer, reply), k);
        assert Count(h.calls, k) + Pending(h.threads, k) <= Attempts(h.table, k);
      }
    }
  }

  lemma SettleStep(h: Host, i: nat, now: int)
    requires HostOk(h)
    ensures HostOk(DoSettle(h, i, now))
  {
    hide HostOk, Gentle, Transition;
    if At(h, i) && h.threads[i].Answered? {
      var (id, outer, reply) := (h.threads[i].id, h.threads[i].outer, h.threads[i].reply);
      var to := match reply case Failing => Failed case Async => Running case Sync => Completed;
      HostLedger(h);
      match Move(h, id, to, if reply.Async? then Some(LEASE) else None, now)
      case Err(_) =>
        if outer.Some? { MoveOut(h, i, Finished); } else { MoveOutside(h, i, Finished); }
      case Ok(t) =>
        MoveIsGentle(h.table, id, to, Some(h.epoch), if reply.Async? then Some(LEASE) else None, now);
        TableFrame(h, t);
        var g := h.(table := t);
        match outer {
          case None => MoveOutside(g, i, Finished);
          case Some(todo) => MoveInside(g, i, Scanning(todo));
        }
        SpawnOk(Return(g, i, outer), Tracking(id));
    }
  }

  lemma OutsideMove(h: Host, i: nat, id: string, to: WorkState, lease: Option<int>, now: int)
    requires HostOk(h) && At(h, i) && !Holds(h.threads[i]) && !to.Dispatching? && !to.Queued?
    ensures Move(h, id, to, lease, now).Ok? ==> HostOk(Go(h.(table := Move(h, id, to, lease, now).value), i, Finished))
    ensures HostOk(Go(h, i, Finished))
  {
    hide HostOk, Gentle, Transition;
    HostLedger(h);
    MoveOutside(h, i, Finished);
    if Move(h, id, to, lease, now).Ok? {
      MoveIsGentle(h.table, id, to, Some(h.epoch), lease, now);
      TableFrame(h, Move(h, id, to, lease, now).value);
      MoveOutside(h.(table := Move(h, id, to, lease, now).value), i, Finished);
    }
  }

  lemma SpawnSteps(h: Host, id: string, r: Resolution, now: int)
    requires HostOk(h)
    ensures HostOk(DoReconcile(h, id)) && HostOk(DoListStale(h, id, now)) && HostOk(DoOperator(h, id, r))
  {
    hide HostOk;
    SpawnOk(h, Reclaiming(id));
    SpawnOk(h, Retiring(id));
    SpawnOk(h, Resolving(id, r));
  }

  lemma ReclaimStep(h: Host, i: nat, now: int)
    requires HostOk(h)
    ensures HostOk(DoReclaim(h, i, now))
  {
    hide HostOk, Move;
    if At(h, i) && h.threads[i].Reclaiming? {
      var id := h.threads[i].id;
      OutsideMove(h, i, id, Running, Some(LEASE), now);
      match Move(h, id, Running, Some(LEASE), now)
      case Err(_) =>
      case Ok(t) => SpawnOk(Go(h.(table := t), i, Finished), Tracking(id));
    }
  }

  lemma TrackStep(h: Host, i: nat, what: Track, now: int)
    requires HostOk(h)
    ensures HostOk(DoTrack(h, i, what, now))
  {
    hide HostOk, Move, Gentle, RenewLease;
    if At(h, i) && (h.threads[i].Tracking? || h.threads[i].Closing?) {
      var id := h.threads[i].id;
      OutsideMove(h, i, id, Uncertain, None, now);
      OutsideMove(h, i, id, Completed, None, now);
      MoveOutside(h, i, Closing(id));
      HostLedger(h);
      match RenewLease(h.table, id, h.epoch, LEASE, now)
      case Err(_) =>
      case Ok(t) =>
        RenewIsGentle(h.table, id, h.epoch, LEASE, now);
        TableFrame(h, t);
    }
  }

  lemma RenewStep(h: Host, id: string, owner: string, lease: int, now: int)
    requires HostOk(h)
    ensures HostOk(DoRenew(h, id, owner, lease, now))
  {
    hide HostOk, Gentle, RenewLease;
    HostLedger(h);
    match RenewLease(h.table, id, owner, lease, now)
    case Err(_) =>
    case Ok(t) =>
      RenewIsGentle(h.table, id, owner, lease, now);
      TableFrame(h, t);
  }

  lemma RetireStep(h: Host, i: nat, now: int)
    requires HostOk(h)
    ensures HostOk(DoRetire(h, i, now))
  {
    hide HostOk, Gentle, Transition;
    if At(h, i) && h.threads[i].Retiring? {
      var id := h.threads[i].id;
      HostLedger(h);
      MoveOutside(h, i, Finished);
      match Transition(h.table, id, Cancelled, None, None, None, None, now)
      case Err(_) =>
      case Ok(t) =>
        MoveIsGentle(h.table, id, Cancelled, None, None, now);
        TableFrame(h, t);
        MoveOutside(h.(table := t), i, Finished);
    }
  }

  /** The operator's retry is the one step that can requeue, and it is counted. */
  lemma RetryFrame(h: Host, id: string, t: Table)
    requires HostOk(h) && Gentle(h.table, t, Some(id))
    ensures HostOk(h.(table := t, retries := h.retries[id := Count(h.retries, id) + 1]))
  {
    hide LedgerOk, Requeues, Waiting, Attempts, Pending;
    var g := h.(table := t, retries := h.retries[id := Count(h.retries, id) + 1]);
    forall k ensures Count(g.calls, k) + Pending(g.threads, k) <= Attempts(t, k) {
      assert Count(h.calls, k) + Pending(h.threads, k) <= Attempts(h.table, k) <= Attempts(t, k);
    }
    forall k ensures Requeues(t.log, k) <= Count(g.retries, k) {
      assert Requeues(h.table.log, k) <= Count(h.retries, k);
    }
  }

  lemma ResolveStep(h: Host, i: nat, now: int)
    requires HostOk(h)
    ensures HostOk(DoResolve(h, i, now))
  {
    hide HostOk, Gentle, Transition;
    if At(h, i) && h.threads[i].Resolving? {
      var (id, r) := (h.threads[i].id, h.threads[i].resolution);
      HostLedger(h);
      MoveOutside(h, i, Finished);
      match Move(h, id, Target(r), None, now)
      case Err(_) =>
      case Ok(t) =>
        MoveIsGentle(h.table, id, Target(r), Some(h.epoch), None, now);
        if r.Retry? {
          RetryFrame(h, id, t);
          MoveOutside(h.(table := t, retries := h.retries[id := Count(h.retries, id) + 1]), i, Requeued(id));
        } else {
          TableFrame(h, t);
          MoveOutside(h.(table := t), i, Finished);
        }
    }
  }

  /** A crash loses every thread, so every pending call, and the next worker requeues nothing. */
  lemma RestartStep(h: Host, epoch: string, now: int)
    requires HostOk(h)
    ensures HostOk(DoRestart(h, epoch, now))
  {
    hide LedgerOk, Requeues, Waiting, Attempts, Recover;
    if epoch !in h.used {
      RecoverIsGentle(h.table, epoch, now);
      var u := Recover(h.table, epoch, now);
      TableFrame(h, u);
      var g := DoRestart(h, epoch, now);
      forall k ensures Count(g.calls, k) + Pending(g.threads, k) <= Attempts(u, k) {
        assert Count(h.calls, k) + Pending(h.threads, k) <= Attempts(u, k);
        assert Pending([], k) == 0;
      }
    }
  }

  lemma StepOk(h: Host, a: Action)
    requires HostOk(h)
    ensures HostOk(Step(h, a))
  {
    hide HostOk, DoSubmit, DoReadDrain, DoAcquire, DoStartScan, DoListQueued, DoNext, DoReadFresh, DoClaim, DoAbandon,
      DoSend, DoSettle,
      DoReconcile, DoReclaim, DoTrack, DoListStale, DoRetire, DoOperator, DoResolve, DoRestart;
    match a
    case ASubmit(r, execute, now) => SubmitStep(h, r, execute, now);
    case AReadDrain(i) => ReadDrainStep(h, i);
    case AAcquire(i) => LockSteps(h, i, []);
    case AStartScan => LockSteps(h, 0, []);
    case AListQueued(i, todo) => LockSteps(h, i, todo);
    case ANext(i) => LockSteps(h, i, []);
    case AReadFresh(i) => ReadFreshStep(h, i);
    case AClaim(i, now) => ClaimStep(h, i, now);
    case AAbandon(i) => AbandonStep(h, i);
    case ASend(i, reply) => SendStep(h, i, reply);
    case ASettle(i, now) => SettleStep(h, i, now);
    case AReconcile(id) => SpawnSteps(h, id, Retry, 0);
    case AReclaim(i, now) => ReclaimStep(h, i, now);
    case ATrack(i, what, now) => TrackStep(h, i, what, now);
    case AListStale(id, now) => SpawnSteps(h, id, Retry, now);
    case ARetire(i, now) => RetireStep(h, i, now);
    case AOperator(id, r) => SpawnSteps(h, id, r, 0);
    case AResolve(i, now) => ResolveStep(h, i, now);
    case ARenew(id, owner, lease, now) => RenewStep(h, id, owner, lease, now);
    case ASetDrain(enabled, reason, now) =>
      HostLedger(h);
      DrainIsGentle(h.table, enabled, reason, now);
      TableFrame(h, SetDrain(h.table, enabled, reason, now));
    case ARestart(epoch, now) => RestartStep(h, epoch, now);
  }

  lemma BootOk(epoch: string)
    ensures HostOk(Boot(epoch))
  {
    EmptyOk();
  }

  lemma {:induction false} RunOk(epoch: string, actions: seq<Action>)
    ensures HostOk(EngineHost.Run(epoch, actions))
    decreases |actions|
  {
    hide HostOk, Step;
    BootOk(epoch);
    if actions != [] {
      RunOk(epoch, actions[..|actions| - 1]);
      StepOk(EngineHost.Run(epoch, actions[..|actions| - 1]), actions[|actions| - 1]);
    }
  }

  /** Never replay. Over every interleaving, restart and drain toggle: the engine is called for an item at most
      as often as it was attempted, it is attempted at most once more than it re-entered the queue, and only
      an operator's retry puts it back there. Without a retry no item is ever sent twice. */
  lemma NeverReplayed(epoch: string, actions: seq<Action>, id: string)
    ensures var h := EngineHost.Run(epoch, actions);
      && Count(h.calls, id) <= Attempts(h.table, id)
      && Attempts(h.table, id) <= 1 + Requeues(h.table.log, id)
      && Requeues(h.table.log, id) <= Count(h.retries, id)
      && (Count(h.retries, id) == 0 ==> Count(h.calls, id) <= 1)
  {
    hide Replay, EngineHost.Run;
    var h := EngineHost.Run(epoch, actions);
    RunOk(epoch, actions);
    assert Count(h.calls, id) + Pending(h.threads, id) <= Attempts(h.table, id);
    assert Requeues(h.table.log, id) <= Count(h.retries, id);
    AttemptsBounded(h.table.log, id);
    if id in h.table.items {
      assert ItemOk(h.table.log, id, h.table.items[id]);
    }
  }
}
