/** `EngineHost` and `WorkerRuntime` (worker_engines.py, ccc_worker.py) as a step relation.

    Every ledger call is one transaction and every other thread may run between two of them, so
    each method of the source is cut at its ledger calls, its lock section and its engine call.
    Threads live in the worker process: a crash ends them all, and the next worker starts with a
    fresh epoch and `recover_orphaned_running`. `calls` counts what no table records: how often an
    item was really sent to its engine. */
module EngineHost {
  import opened OrderedDict
  import opened WorkLedger

  /** How an engine call comes back: raised or not ok, accepted and running, or finished at once. */
  datatype Reply = Failing | Async | Sync

  datatype Resolution = Retry | Complete | Fail | Cancel

  /** Where a thread stands. `outer` is the rest of the queue when `dispatch_queued` is the caller,
      which keeps the dispatch lock throughout. */
  datatype Pc =
    | Finished
    | Created(id: string)                                    // execute: submitted, drain not read yet
    | Wants(id: string)                                      // about to take the dispatch lock
    | Scanning(todo: seq<string>)                            // dispatch_queued, lock held
    | Entered(id: string, outer: Option<seq<string>>)        // lock held, fresh row not read yet
    | SawQueued(id: string, outer: Option<seq<string>>)      // fresh row was queued
    | SawOpen(id: string, outer: Option<seq<string>>)        // and drain was off
    | Claimed(id: string, outer: Option<seq<string>>)        // moved to dispatching, engine not called yet
    | Answered(id: string, outer: Option<seq<string>>, reply: Reply)
    | Reclaiming(id: string)                                 // reconcile: listed, live evidence seen
    | Tracking(id: string)                                   // _track_async_loop
    | Closing(id: string)                                    // tracker: no open children, about to complete
    | Retiring(id: string)                                   // retire: listed as stale
    | Resolving(id: string, resolution: Resolution)          // operator: state was checked
    | Requeued(id: string)                                   // operator retry: moved back to queued

  datatype Host = Host(
    table: Table, threads: seq<Pc>, lock: Option<nat>, epoch: string, used: set<string>,
    calls: map<string, nat>, retries: map<string, nat>)

  datatype Track = Renew | SeeDone | Complete' | Break

  datatype Action =
    | ASubmit(request: Request, execute: bool, now: int)
    | AReadDrain(i: nat)
    | AAcquire(i: nat)
    | AStartScan
    | AListQueued(i: nat, todo: seq<string>)
    | ANext(i: nat)
    | AReadFresh(i: nat)
    | AClaim(i: nat, now: int)
    | AAbandon(i: nat)
    | ASend(i: nat, reply: Reply)
    | ASettle(i: nat, now: int)
    | AReconcile(id: string)
    | AReclaim(i: nat, now: int)
    | ATrack(i: nat, what: Track, now: int)
    | AListStale(id: string, now: int)
    | ARetire(i: nat, now: int)
    | AOperator(id: string, resolution: Resolution)
    | AResolve(i: nat, now: int)
    | ARenew(id: string, owner: string, lease: int, now: int)
    | ASetDrain(enabled: bool, reason: string, now: int)
    | ARestart(epoch: string, now: int)

  const LEASE := 30

  function Count(m: map<string, nat>, id: string): nat {
    if id in m then m[id] else 0
  }

  function StateOf(t: Table, id: string): Option<WorkState> {
    if id in t.items then Some(t.items[id].state) else None
  }

  predicate At(h: Host, i: nat) {
    i < |h.threads|
  }

  /** Thread `i` moves to `pc`. */
  function Go(h: Host, i: nat, pc: Pc): Host
    requires At(h, i)
  {
    h.(threads := h.threads[i := pc])
  }

  /** Leaving the `with self._dispatch_lock` block of `_dispatch_item`: the lock is released unless
      `dispatch_queued` still holds it. */
  function Leave(h: Host, outer: Option<seq<string>>): Host {
    if outer.None? then h.(lock := None) else h
  }

  /** `_dispatch_item` returned. */
  function Return(h: Host, i: nat, outer: Option<seq<string>>): Host
    requires At(h, i)
  {
    match outer case None => Go(h, i, Finished) case Some(todo) => Go(h, i, Scanning(todo))
  }

  /** An exception left every `with` block of the thread. */
  function Die(h: Host, i: nat, outer: Option<seq<string>>): Host
    requires At(h, i)
  {
    Go(h, i, Finished).(lock := if outer.Some? then None else h.lock)
  }

  function Spawn(h: Host, pc: Pc): Host {
    h.(threads := h.threads + [pc])
  }

  function Move(h: Host, id: string, to: WorkState, lease: Option<int>, now: int): Result<Table> {
    Transition(h.table, id, to, Some(h.epoch), lease, None, None, now)
  }

  function Target(r: Resolution): WorkState {
    match r case Retry => Queued case Complete => Completed case Fail => Failed case Cancel => Cancelled
  }

  predicate Resolvable(h: Host, id: string) {
    id in h.table.items && (h.table.items[id].state.Uncertain? || h.table.items[id].state.Interrupted?)
  }

  // ---- one action; a disabled action changes nothing ----

  function DoSubmit(h: Host, r: Request, execute: bool, now: int): Host {
    match Submit(h.table, r, now)
    case Err(_) => h
    case Ok((t, created)) =>
      var g := h.(table := t);
      if created && execute then Spawn(g, Created(r.id)) else g
  }

  function DoReadDrain(h: Host, i: nat): Host {
    if !At(h, i) then h
    else
      match h.threads[i]
      case Created(id) => Go(h, i, if h.table.drain.enabled then Finished else Wants(id))
      case Requeued(id) => Go(h, i, if h.table.drain.enabled then Finished else Wants(id))
      case SawQueued(id, outer) =>
        if h.table.drain.enabled then Return(Leave(h, outer), i, outer) else Go(h, i, SawOpen(id, outer))
      case _ => h
  }

  function DoAcquire(h: Host, i: nat): Host {
    if At(h, i) && h.threads[i].Wants? && h.lock.None?
    then Go(h, i, Entered(h.threads[i].id, None)).(lock := Some(i)) else h
  }

  /** `dispatch_queued` takes the lock and returns at once when draining. */
  function DoStartScan(h: Host): Host {
    if h.lock.Some? || h.table.drain.enabled then h else Spawn(h, Scanning([])).(lock := Some(|h.threads|))
  }

  /** Whatever the queued listing returned. */
  function DoListQueued(h: Host, i: nat, todo: seq<string>): Host {
    if At(h, i) && h.threads[i].Scanning? && h.threads[i].todo == [] then Go(h, i, Scanning(todo)) else h
  }

  function DoNext(h: Host, i: nat): Host {
    if !At(h, i) || !h.threads[i].Scanning? then h
    else
      var todo := h.threads[i].todo;
      if todo == [] then Go(h, i, Finished).(lock := None) else Go(h, i, Entered(todo[0], Some(todo[1..])))
  }

  function DoReadFresh(h: Host, i: nat): Host {
    if !At(h, i) || !h.threads[i].Entered? then h
    else
      var (id, outer) := (h.threads[i].id, h.threads[i].outer);
      if id in h.table.items && h.table.items[id].state.Queued? then Go(h, i, SawQueued(id, outer))
      else Return(Leave(h, outer), i, outer)
  }

  function DoClaim(h: Host, i: nat, now: int): Host {
    if !At(h, i) || !h.threads[i].SawOpen? then h
    else
      var (id, outer) := (h.threads[i].id, h.threads[i].outer);
      match Move(h, id, Dispatching, Some(LEASE), now)
      case Err(_) => Die(Leave(h, outer), i, outer)
      case Ok(t) => Go(Leave(h, outer), i, Claimed(id, outer)).(table := t)
  }

  /** Anything raised between the claim and the engine call, which is outside the try block. */
  function DoAbandon(h: Host, i: nat): Host {
    if At(h, i) && h.threads[i].Claimed? then Die(h, i, h.threads[i].outer) else h
  }

  function DoSend(h: Host, i: nat, reply: Reply): Host {
    if !At(h, i) || !h.threads[i].Claimed? then h
    else
      var (id, outer) := (h.threads[i].id, h.threads[i].outer);
      Go(h, i, Answered(id, outer, reply)).(calls := h.calls[id := Count(h.calls, id) + 1])
  }

  function DoSettle(h: Host, i: nat, now: int): Host {
    if !At(h, i) || !h.threads[i].Answered? then h
    else
      var (id, outer, reply) := (h.threads[i].id, h.threads[i].outer, h.threads[i].reply);
      var to := match reply case Failing => Failed case Async => Running case Sync => Completed;
      match Move(h, id, to, if reply.Async? then Some(LEASE) else None, now)
      case Err(_) => Die(h, i, outer)
      case Ok(t) =>
        var g := Return(h.(table := t), i, outer);
        if reply.Async? then Spawn(g, Tracking(id)) else g
  }

  function DoReconcile(h: Host, id: string): Host {
    if Resolvable(h, id) then Spawn(h, Reclaiming(id)) else h
  }

  function DoReclaim(h: Host, i: nat, now: int): Host {
    if !At(h, i) || !h.threads[i].Reclaiming? then h
    else
      var id := h.threads[i].id;
      match Move(h, id, Running, Some(LEASE), now)
      case Err(_) => Go(h, i, Finished)
      case Ok(t) => Spawn(Go(h.(table := t), i, Finished), Tracking(id))
  }

  /** The tracker's except clause: mark uncertain if that is still allowed, and stop. */
  function GiveUp(h: Host, i: nat, id: string, now: int): Host
    requires At(h, i)
  {
    match Move(h, id, Uncertain, None, now)
    case Err(_) => Go(h, i, Finished)
    case Ok(t) => Go(h.(table := t), i, Finished)
  }

  function DoTrack(h: Host, i: nat, what: Track, now: int): Host {
    if !At(h, i) then h
    else
      match (h.threads[i], what)
      case (Tracking(id), Renew) =>
        (match RenewLease(h.table, id, h.epoch, LEASE, now)
         case Err(_) => GiveUp(h, i, id, now)
         case Ok(t) => h.(table := t))
      case (Tracking(id), SeeDone) => Go(h, i, Closing(id))
      case (Tracking(id), Break) => GiveUp(h, i, id, now)
      case (Closing(id), Complete') =>
        (match Move(h, id, Completed, None, now)
         case Err(_) => GiveUp(h, i, id, now)
         case Ok(t) => Go(h.(table := t), i, Finished))
      case _ => h
  }

  const RETIRE_AFTER := 900

  /** Uncertain and untouched for a quarter of an hour. */
  predicate Stale(t: Table, id: string, now: int) {
    id in t.items && t.items[id].state.Uncertain?
    && (if t.items[id].updatedAt != 0 then t.items[id].updatedAt else t.items[id].createdAt) <= now - RETIRE_AFTER
  }

  function DoListStale(h: Host, id: string, now: int): Host {
    if Stale(h.table, id, now) then Spawn(h, Retiring(id)) else h
  }

  function DoRetire(h: Host, i: nat, now: int): Host {
    if !At(h, i) || !h.threads[i].Retiring? then h
    else
      match Transition(h.table, h.threads[i].id, Cancelled, None, None, None, None, now)
      case Err(_) => Go(h, i, Finished)
      case Ok(t) => Go(h.(table := t), i, Finished)
  }

  function DoOperator(h: Host, id: string, r: Resolution): Host {
    if Resolvable(h, id) then Spawn(h, Resolving(id, r)) else h
  }

  function DoResolve(h: Host, i: nat, now: int): Host {
    if !At(h, i) || !h.threads[i].Resolving? then h
    else
      var (id, r) := (h.threads[i].id, h.threads[i].resolution);
      match Move(h, id, Target(r), None, now)
      case Err(_) => Go(h, i, Finished)
      case Ok(t) =>
        if r.Retry? then Go(h.(table := t, retries := h.retries[id := Count(h.retries, id) + 1]), i, Requeued(id))
        else Go(h.(table := t), i, Finished)
  }

  /** The `work.renew` call. */
  function DoRenew(h: Host, id: string, owner: string, lease: int, now: int): Host {
    match RenewLease(h.table, id, owner, lease, now) case Ok(t) => h.(table := t) case Err(_) => h
  }

  function DoRestart(h: Host, epoch: string, now: int): Host {
    if epoch in h.used then h
    else h.(table := Recover(h.table, epoch, now), threads := [], lock := None, epoch := epoch,
      used := h.used + {epoch})
  }

  function Step(h: Host, a: Action): Host {
    match a
    case ASubmit(r, execute, now) => DoSubmit(h, r, execute, now)
    case AReadDrain(i) => DoReadDrain(h, i)
    case AAcquire(i) => DoAcquire(h, i)
    case AStartScan => DoStartScan(h)
    case AListQueued(i, todo) => DoListQueued(h, i, todo)
    case ANext(i) => DoNext(h, i)
    case AReadFresh(i) => DoReadFresh(h, i)
    case AClaim(i, now) => DoClaim(h, i, now)
    case AAbandon(i) => DoAbandon(h, i)
    case ASend(i, reply) => DoSend(h, i, reply)
    case ASettle(i, now) => DoSettle(h, i, now)
    case AReconcile(id) => DoReconcile(h, id)
    case AReclaim(i, now) => DoReclaim(h, i, now)
    case ATrack(i, what, now) => DoTrack(h, i, what, now)
    case AListStale(id, now) => DoListStale(h, id, now)
    case ARetire(i, now) => DoRetire(h, i, now)
    case AOperator(id, r) => DoOperator(h, id, r)
    case AResolve(i, now) => DoResolve(h, i, now)
    case ARenew(id, owner, lease, now) => DoRenew(h, id, owner, lease, now)
    case ASetDrain(enabled, reason, now) => h.(table := SetDrain(h.table, enabled, reason, now))
    case ARestart(epoch, now) => DoRestart(h, epoch, now)
  }

  function Boot(epoch: string): Host {
    Host(EMPTY, [], None, epoch, {epoch}, map[], map[])
  }

  function Run(epoch: string, actions: seq<Action>): Host {
    if actions == [] then Boot(epoch) else Step(Run(epoch, actions[..|actions| - 1]), actions[|actions| - 1])
  }
}
