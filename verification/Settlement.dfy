/** What the engine host makes of replies, trackers and operators, said without its methods: which step may put an
    item into which state, what that state says about the past, and who watches running work
    (worker_engines.py:157-242, 275-307, 329-392, 775-828). */
module Settlement {
  import opened OrderedDict
  import opened WorkLedger
  import opened EngineHost
  import opened NeverReplay
  import opened Sequences

  // ---- one ledger call ----

  /** A transition by the host: refused and without effect, or the item is in the new state and no other moved. */
  lemma {:induction false} MoveStates(h: Host, id: string, to: WorkState, lease: Option<int>, now: int, k: string)
    ensures match Move(h, id, to, lease, now)
      case Err(_) => id !in h.table.items || (h.table.items[id].state != to && !Allowed(h.table.items[id].state, to))
      case Ok(t) =>
        && id in h.table.items && (h.table.items[id].state == to || Allowed(h.table.items[id].state, to))
        && StateOf(t, k) == if k == id then Some(to) else StateOf(h.table, k)
  {
  }

  // ---- what a reply, an order and a finished execution lead to ----

  /** The state a settled reply gives. */
  predicate Gives(reply: Reply, s: WorkState) {
    (reply == Failing && s == Failed) || (reply == Async && s == Running) || (reply == Sync && s == Completed)
  }

  const SETTLEABLE := {Some(Dispatching), Some(Running), Some(Uncertain)}

  /** Settling a reply moves an item in flight to the state the reply gives, and leaves any other item alone. */
  lemma {:induction false} ReplySettles(h: Host, i: nat, now: int, k: string)
    requires At(h, i) && h.threads[i].Answered?
    ensures var (id, reply, g) := (h.threads[i].id, h.threads[i].reply, DoSettle(h, i, now));
      var was, after := StateOf(h.table, id), StateOf(g.table, id);
      && (was in SETTLEABLE ==> after.Some? && Gives(reply, after.value))
      && (was !in SETTLEABLE ==> after == was)
      && (k != id ==> StateOf(g.table, k) == StateOf(h.table, k))
  {
    hide Move;
    var id := h.threads[i].id;
    match h.threads[i].reply
    case Failing =>
      MoveStates(h, id, Failed, None, now, k);
      MoveStates(h, id, Failed, None, now, id);
    case Async =>
      MoveStates(h, id, Running, Some(LEASE), now, k);
      MoveStates(h, id, Running, Some(LEASE), now, id);
    case Sync =>
      MoveStates(h, id, Completed, None, now, k);
      MoveStates(h, id, Completed, None, now, id);
  }

  /** Accepted asynchronous work gets a tracker of its own. */
  lemma {:induction false} AcceptedIsTracked(h: Host, i: nat, now: int)
    requires At(h, i) && h.threads[i].Answered? && h.threads[i].reply == Async
    requires StateOf(h.table, h.threads[i].id) in SETTLEABLE
    ensures var g := DoSettle(h, i, now);
      |g.threads| == |h.threads| + 1 && g.threads[|h.threads|] == Tracking(h.threads[i].id)
  {
    hide Move;
    MoveStates(h, h.threads[i].id, Running, Some(LEASE), now, h.threads[i].id);
  }

  /** The state an operator's order asks for. */
  predicate Orders(r: Resolution, s: WorkState) {
    (r == Retry && s == Queued) || (r == Complete && s == Completed) || (r == Fail && s == Failed)
    || (r == Cancel && s == Cancelled)
  }

  /** An order carried out on work that is still uncertain gives the state ordered. It is carried out on work that
      moved on as well, if the transition graph has that edge, and otherwise changes nothing. */
  lemma {:induction false} OrderSettles(h: Host, i: nat, now: int, s: WorkState)
    requires At(h, i) && h.threads[i].Resolving? && Orders(h.threads[i].resolution, s)
    ensures var id := h.threads[i].id;
      var was, after := StateOf(h.table, id), StateOf(DoResolve(h, i, now).table, id);
      && (was == Some(Uncertain) ==> after == Some(s))
      && after == if was.Some? && Allowed(was.value, s) then Some(s) else was
  {
    hide Move;
    MoveStates(h, h.threads[i].id, s, None, now, h.threads[i].id);
  }

  /** A tracker that saw its item finish completes it; one that fails, or loses the lease, leaves it uncertain. */
  lemma {:induction false} TrackerSettles(h: Host, i: nat, what: Track, now: int)
    requires At(h, i) && (h.threads[i].Tracking? || h.threads[i].Closing?)
    requires StateOf(h.table, h.threads[i].id) == Some(Running)
    ensures var id := h.threads[i].id;
      var g := DoTrack(h, i, what, now);
      StateOf(g.table, id) ==
        if h.threads[i].Closing? && what == Complete' then Some(Completed)
        else if h.threads[i].Tracking? && (what == Break || (what == Renew && h.table.items[id].epoch != h.epoch))
        then Some(Uncertain) else Some(Running)
  {
    hide Move;
    MoveStates(h, h.threads[i].id, Completed, None, now, h.threads[i].id);
    MoveStates(h, h.threads[i].id, Uncertain, None, now, h.threads[i].id);
  }

  // ---- which step may put an item into which state ----

  predicate Carries(h: Host, a: Action, pc: Pc) {
    match a
    case AClaim(i, _) => At(h, i) && h.threads[i] == pc
    case ASettle(i, _) => At(h, i) && h.threads[i] == pc
    case AReclaim(i, _) => At(h, i) && h.threads[i] == pc
    case ATrack(i, _, _) => At(h, i) && h.threads[i] == pc
    case ARetire(i, _) => At(h, i) && h.threads[i] == pc
    case AResolve(i, _) => At(h, i) && h.threads[i] == pc
    case _ => false
  }

  predicate Settles(h: Host, a: Action, id: string, reply: Reply) {
    a.ASettle? && At(h, a.i) && h.threads[a.i].Answered? && h.threads[a.i].id == id && h.threads[a.i].reply == reply
  }

  /** The steps that may put an item into a state it was not in. Nothing interrupts. */
  predicate Puts(h: Host, a: Action, id: string, s: WorkState) {
    match s
    case Queued => (a.ASubmit? && a.request.id == id) || (a.AResolve? && Carries(h, a, Resolving(id, Retry)))
    case Dispatching => a.AClaim? && At(h, a.i) && h.threads[a.i].SawOpen? && h.threads[a.i].id == id
    case Running => Settles(h, a, id, Async) || (a.AReclaim? && Carries(h, a, Reclaiming(id)))
    case Completed =>
      Settles(h, a, id, Sync) || (a.ATrack? && a.what == Complete' && Carries(h, a, Closing(id)))
      || (a.AResolve? && Carries(h, a, Resolving(id, Complete)))
    case Failed => Settles(h, a, id, Failing) || (a.AResolve? && Carries(h, a, Resolving(id, Fail)))
    case Cancelled =>
      (a.ARetire? && Carries(h, a, Retiring(id))) || (a.AResolve? && Carries(h, a, Resolving(id, Cancel)))
    case Uncertain =>
      a.ARestart? || (a.ATrack? && (Carries(h, a, Tracking(id)) || Carries(h, a, Closing(id))))
    case Interrupted => false
  }

  lemma {:induction false} SubmitStates(h: Host, r: Request, execute: bool, now: int, id: string)
    ensures var s := StateOf(DoSubmit(h, r, execute, now).table, id);
      s == StateOf(h.table, id) || (s == Some(Queued) && r.id == id)
  {
    hide Blank, KeyTaken;
  }

  lemma {:induction false} RenewalStates(t: Table, id: string, epoch: string, lease: int, now: int, k: string)
    ensures match RenewLease(t, id, epoch, lease, now)
      case Err(_) => true
      case Ok(u) => StateOf(u, k) == StateOf(t, k)
  {
  }

  lemma {:induction false} RenewStates(h: Host, id: string, epoch: string, lease: int, now: int, k: string)
    ensures StateOf(DoRenew(h, id, epoch, lease, now).table, k) == StateOf(h.table, k)
  {
    RenewalStates(h.table, id, epoch, lease, now, k);
  }

  lemma {:induction false} RetireStates(h: Host, i: nat, now: int, k: string)
    ensures var s := StateOf(DoRetire(h, i, now).table, k);
      s != StateOf(h.table, k) ==> s == Some(Cancelled) && Puts(h, ARetire(i, now), k, Cancelled)
  {
    hide Allowed;
    if At(h, i) && h.threads[i].Retiring? {
      assert h.threads[i] == Retiring(h.threads[i].id);
    }
  }

  lemma {:induction false} TrackStates(h: Host, i: nat, what: Track, now: int, k: string)
    ensures var s := StateOf(DoTrack(h, i, what, now).table, k);
      s != StateOf(h.table, k) ==> s.Some? && Puts(h, ATrack(i, what, now), k, s.value)
  {
    hide Move, RenewLease, Allowed;
    if At(h, i) && h.threads[i].Tracking? {
      MoveStates(h, h.threads[i].id, Uncertain, None, now, k);
      RenewalStates(h.table, h.threads[i].id, h.epoch, LEASE, now, k);
      assert h.threads[i] == Tracking(h.threads[i].id);
    } else if At(h, i) && h.threads[i].Closing? {
      MoveStates(h, h.threads[i].id, Uncertain, None, now, k);
      MoveStates(h, h.threads[i].id, Completed, None, now, k);
      assert h.threads[i] == Closing(h.threads[i].id);
    }
  }

  lemma {:induction false} ResolveStates(h: Host, i: nat, now: int, k: string)
    ensures var s := StateOf(DoResolve(h, i, now).table, k);
      s != StateOf(h.table, k) ==> s.Some? && Puts(h, AResolve(i, now), k, s.value)
  {
    if At(h, i) && h.threads[i].Resolving? {
      MoveStates(h, h.threads[i].id, Target(h.threads[i].resolution), None, now, k);
      hide Move;
      assert h.threads[i] == Resolving(h.threads[i].id, h.threads[i].resolution);
    }
  }

  lemma {:induction false} ClaimReclaimStates(h: Host, i: nat, now: int, k: string)
    ensures var s := StateOf(DoClaim(h, i, now).table, k);
      s != StateOf(h.table, k) ==> s == Some(Dispatching) && Puts(h, AClaim(i, now), k, Dispatching)
    ensures var s := StateOf(DoReclaim(h, i, now).table, k);
      s != StateOf(h.table, k) ==> s == Some(Running) && Puts(h, AReclaim(i, now), k, Running)
  {
    if At(h, i) && h.threads[i].SawOpen? {
      MoveStates(h, h.threads[i].id, Dispatching, Some(LEASE), now, k);
    }
    if At(h, i) && h.threads[i].Reclaiming? {
      MoveStates(h, h.threads[i].id, Running, Some(LEASE), now, k);
    }
    hide Move;
  }

  lemma {:induction false} RestartStates(h: Host, epoch: string, now: int, k: string)
    requires LedgerOk(h.table)
    ensures var s := StateOf(DoRestart(h, epoch, now).table, k);
      s != StateOf(h.table, k) ==> s == Some(Uncertain) && epoch !in h.used && Orphaned(h.table, k, epoch)
  {
    hide LedgerOk, Recover;
    RecoverOk(h.table, epoch, now);
  }

  lemma {:induction false} SettleStates(h: Host, i: nat, now: int, k: string)
    ensures var s := StateOf(DoSettle(h, i, now).table, k);
      s != StateOf(h.table, k) ==> s.Some? && Puts(h, ASettle(i, now), k, s.value)
  {
    if At(h, i) && h.threads[i].Answered? {
      ReplySettles(h, i, now, k);
      hide DoSettle;
    }
  }

  /** The steps that do not write the ledger's rows. */
  lemma {:induction false} QuietRows(h: Host, a: Action)
    requires a.AReadDrain? || a.AAcquire? || a.AStartScan? || a.AListQueued? || a.ANext? || a.AReadFresh?
      || a.AAbandon? || a.ASend? || a.AReconcile? || a.AListStale? || a.AOperator? || a.ASetDrain?
    ensures var g := Step(h, a); g.table.items == h.table.items && g.epoch == h.epoch && g.used == h.used
  {
    hide Stale, Resolvable, DoSubmit, DoClaim, DoSettle, DoReclaim, DoTrack, DoRetire, DoResolve, DoRenew, DoRestart;
  }

  /** Over every step: an item enters a state only by a step listed for it. */
  lemma {:induction false} EntersBy(h: Host, a: Action, id: string)
    requires LedgerOk(h.table)
    ensures var s := StateOf(Step(h, a).table, id);
      s != StateOf(h.table, id) ==> s.Some? && Puts(h, a, id, s.value)
  {
    hide LedgerOk, DoSubmit, DoClaim, DoReclaim, DoSettle, DoTrack, DoRetire, DoResolve, DoRenew, DoRestart,
      DoReadDrain, DoAcquire, DoStartScan, DoListQueued, DoNext, DoReadFresh, DoAbandon, DoSend, DoReconcile,
      DoListStale, DoOperator, SetDrain, Carries;
    match a
    case ASubmit(r, execute, now) => SubmitStates(h, r, execute, now, id);
    case AClaim(i, now) => ClaimReclaimStates(h, i, now, id);
    case ASettle(i, now) => SettleStates(h, i, now, id);
    case AReclaim(i, now) => ClaimReclaimStates(h, i, now, id);
    case ATrack(i, what, now) => TrackStates(h, i, what, now, id);
    case ARetire(i, now) => RetireStates(h, i, now, id);
    case AResolve(i, now) => ResolveStates(h, i, now, id);
    case ARenew(k, owner, lease, now) => RenewStates(h, k, owner, lease, now, id);
    case ARestart(epoch, now) => RestartStates(h, epoch, now, id);
    case _ => QuietRows(h, a);
  }

  // ---- what the state of an item says about the past ----

  /** What the host was told: an engine's reply, a tracker's finding, an operator's order, live evidence, staleness. */
  datatype Fact = Replied(id: string, reply: Reply) | SawDone(id: string) | Ordered(id: string, resolution: Resolution)
    | Live(id: string) | Listed(id: string)

  function FactsOf(h: Host, a: Action): set<Fact> {
    match a
    case ASend(i, reply) => if At(h, i) && h.threads[i].Claimed? then {Replied(h.threads[i].id, reply)} else {}
    case ATrack(i, SeeDone, _) => if At(h, i) && h.threads[i].Tracking? then {SawDone(h.threads[i].id)} else {}
    case AOperator(id, r) => {Ordered(id, r)}
    case AReconcile(id) => {Live(id)}
    case AListStale(id, now) => if Stale(h.table, id, now) then {Listed(id)} else {}
    case _ => {}
  }

  /** The record kept beside a run. */
  function Facts(epoch: string, actions: seq<Action>): set<Fact> {
    if actions == [] then {}
    else
      var n := |actions| - 1;
      Facts(epoch, actions[..n]) + FactsOf(EngineHost.Run(epoch, actions[..n]), actions[n])
  }

  /** A thread acts on something the host was told. */
  predicate Backed(pc: Pc, facts: set<Fact>) {
    match pc
    case Answered(id, _, reply) => Replied(id, reply) in facts
    case Closing(id) => SawDone(id) in facts
    case Resolving(id, r) => Ordered(id, r) in facts
    case Reclaiming(id) => Live(id) in facts
    case Retiring(id) => Listed(id) in facts
    case _ => true
  }

  ghost predicate AllBacked(threads: seq<Pc>, facts: set<Fact>) {
    forall i :: 0 <= i < |threads| ==> Backed(threads[i], facts)
  }

  /** What must have been said for an item to be in a state. */
  predicate Warranted(s: WorkState, id: string, facts: set<Fact>) {
    match s
    case Completed => Replied(id, Sync) in facts || SawDone(id) in facts || Ordered(id, Complete) in facts
    case Failed => Replied(id, Failing) in facts || Ordered(id, Fail) in facts
    case Running => Replied(id, Async) in facts || Live(id) in facts
    case Cancelled => Listed(id) in facts || Ordered(id, Cancel) in facts
    case Interrupted => false
    case _ => true
  }

  ghost predicate AllWarranted(t: Table, facts: set<Fact>) {
    forall id :: id in t.items ==> Warranted(t.items[id].state, id, facts)
  }

  lemma {:induction false} ThreadsBacked(h: Host, a: Action, facts: set<Fact>)
    requires AllBacked(h.threads, facts)
    ensures AllBacked(Step(h, a).threads, facts + FactsOf(h, a))
  {
    var g, more := Step(h, a), facts + FactsOf(h, a);
    forall i | 0 <= i < |g.threads| ensures Backed(g.threads[i], more) {
      if i < |h.threads| && g.threads[i] == h.threads[i] {
        assert Backed(h.threads[i], facts);
      } else {
        NewThread(h, a, i);
      }
    }
  }

  /** A thread a step starts or moves acts on what that step was told, if on anything. */
  lemma {:induction false} NewThread(h: Host, a: Action, i: nat)
    requires i < |Step(h, a).threads| && (i < |h.threads| ==> Step(h, a).threads[i] != h.threads[i])
    ensures Backed(Step(h, a).threads[i], FactsOf(h, a))
  {
    hide *;
    if a.AReadDrain? || a.AReadFresh? {
      NewOnRead(h, a, i);
    } else if a.AClaim? || a.AAbandon? {
      NewOnClaim(h, a, i);
    } else if a.AAcquire? || a.AStartScan? || a.AListQueued? || a.ANext? {
      NewAtLock(h, a, i);
    } else if a.ASend? || a.AReconcile? || a.AListStale? || a.AOperator? {
      NewWithFact(h, a, i);
    } else if a.ATrack? {
      NewOnTrack(h, a, i);
    } else {
      NewAfterLedger(h, a, i);
    }
  }

  lemma {:induction false} NewOnRead(h: Host, a: Action, i: nat)
    requires i < |Step(h, a).threads| && (i < |h.threads| ==> Step(h, a).threads[i] != h.threads[i])
    requires a.AReadDrain? || a.AReadFresh?
    ensures Backed(Step(h, a).threads[i], FactsOf(h, a))
  {
    hide Move, FactsOf, DoSubmit, DoSettle, DoReclaim, DoTrack, DoRetire, DoResolve, DoRenew, DoRestart, DoSend,
      DoReconcile, DoListStale, DoOperator, SetDrain,
      DoAcquire, DoStartScan, DoListQueued, DoNext, DoClaim, DoAbandon;
  }

  lemma {:induction false} NewOnClaim(h: Host, a: Action, i: nat)
    requires i < |Step(h, a).threads| && (i < |h.threads| ==> Step(h, a).threads[i] != h.threads[i])
    requires a.AClaim? || a.AAbandon?
    ensures Backed(Step(h, a).threads[i], FactsOf(h, a))
  {
    hide Move, FactsOf, DoSubmit, DoSettle, DoReclaim, DoTrack, DoRetire, DoResolve, DoRenew, DoRestart, DoSend,
      DoReconcile, DoListStale, DoOperator, SetDrain,
      DoAcquire, DoStartScan, DoListQueued, DoNext, DoReadDrain, DoReadFresh;
  }

  lemma {:induction false} NewAtLock(h: Host, a: Action, i: nat)
    requires i < |Step(h, a).threads| && (i < |h.threads| ==> Step(h, a).threads[i] != h.threads[i])
    requires a.AAcquire? || a.AStartScan? || a.AListQueued? || a.ANext?
    ensures Backed(Step(h, a).threads[i], FactsOf(h, a))
  {
    hide Move, FactsOf, DoSubmit, DoSettle, DoReclaim, DoTrack, DoRetire, DoResolve, DoRenew, DoRestart, DoSend,
      DoReconcile, DoListStale, DoOperator, SetDrain,
      DoReadDrain, DoReadFresh, DoClaim, DoAbandon;
  }

  lemma {:induction false} NewWithFact(h: Host, a: Action, i: nat)
    requires i < |Step(h, a).threads| && (i < |h.threads| ==> Step(h, a).threads[i] != h.threads[i])
    requires a.ASend? || a.AReconcile? || a.AListStale? || a.AOperator?
    ensures Backed(Step(h, a).threads[i], FactsOf(h, a))
  {
    hide Stale, Resolvable, DoReadDrain, DoAcquire, DoStartScan, DoListQueued, DoNext, DoReadFresh, DoClaim, DoAbandon,
      DoSubmit, DoSettle, DoReclaim, DoTrack, DoRetire, DoResolve, DoRenew, DoRestart, SetDrain;
  }

  lemma {:induction false} NewAfterLedger(h: Host, a: Action, i: nat)
    requires i < |Step(h, a).threads| && (i < |h.threads| ==> Step(h, a).threads[i] != h.threads[i])
    requires a.ASubmit? || a.ASettle? || a.AReclaim? || a.ARetire? || a.AResolve? || a.ARenew? || a.ASetDrain?
      || a.ARestart?
    ensures Backed(Step(h, a).threads[i], FactsOf(h, a))
  {
    hide Submit, Move, Transition, RenewLease, Recover, DoReadDrain, DoAcquire, DoStartScan, DoListQueued, DoNext,
      DoReadFresh, DoClaim, DoAbandon, DoSend, DoReconcile, DoListStale, DoOperator, DoTrack, SetDrain, FactsOf;
  }

  lemma {:induction false} NewOnTrack(h: Host, a: Action, i: nat)
    requires i < |Step(h, a).threads| && (i < |h.threads| ==> Step(h, a).threads[i] != h.threads[i])
    requires a.ATrack?
    ensures Backed(Step(h, a).threads[i], FactsOf(h, a))
  {
    hide Submit, Move, Transition, RenewLease, Recover, DoReadDrain, DoAcquire, DoStartScan, DoListQueued, DoNext,
      DoReadFresh, DoClaim, DoAbandon, DoSend, DoReconcile, DoListStale, DoOperator, SetDrain, DoSubmit, DoSettle,
      DoReclaim, DoRetire, DoResolve, DoRenew, DoRestart;
  }

  lemma {:induction false} StatesWarranted(h: Host, a: Action, facts: set<Fact>)
    requires LedgerOk(h.table) && AllBacked(h.threads, facts) && AllWarranted(h.table, facts)
    ensures AllWarranted(Step(h, a).table, facts + FactsOf(h, a))
  {
    hide LedgerOk, Step;
    var g, more := Step(h, a), facts + FactsOf(h, a);
    forall id | id in g.table.items ensures Warranted(g.table.items[id].state, id, more) {
      EntersBy(h, a, id);
      var s := g.table.items[id].state;
      assert StateOf(g.table, id) == Some(s);
      if StateOf(h.table, id) == Some(s) {
        assert Warranted(h.table.items[id].state, id, facts);
      } else {
        PutWarranted(h, a, id, s, facts);
        hide FactsOf;
        assert Warranted(s, id, facts);
      }
    }
  }

  lemma {:induction false} PutWarranted(h: Host, a: Action, id: string, s: WorkState, facts: set<Fact>)
    requires AllBacked(h.threads, facts) && Puts(h, a, id, s)
    ensures Warranted(s, id, facts)
  {
  }

  lemma {:induction false} RunWarranted(epoch: string, actions: seq<Action>)
    ensures var h, facts := EngineHost.Run(epoch, actions), Facts(epoch, actions);
      AllBacked(h.threads, facts) && AllWarranted(h.table, facts)
    decreases |actions|
  {
    hide LedgerOk, Step, AllBacked, AllWarranted, FactsOf;
    if actions != [] {
      var n := |actions| - 1;
      var h, facts := EngineHost.Run(epoch, actions[..n]), Facts(epoch, actions[..n]);
      RunWarranted(epoch, actions[..n]);
      RunOk(epoch, actions[..n]);
      ThreadsBacked(h, actions[n], facts);
      StatesWarranted(h, actions[n], facts);
    } else {
      BootWarranted(epoch);
    }
  }

  lemma {:induction false} BootWarranted(epoch: string)
    ensures AllBacked(Boot(epoch).threads, {}) && AllWarranted(Boot(epoch).table, {})
  {
  }

  /** Over every interleaving, crash and restart: completed work was reported done by its engine, seen finished by
      its tracker or declared complete by an operator; failed work was refused by its engine or declared failed;
      running work was accepted by its engine or has live evidence; cancelled work was found stale or cancelled by an
      operator. No item is ever interrupted. */
  lemma {:induction false} StateIsWarranted(epoch: string, actions: seq<Action>, id: string)
    ensures var (s, facts) := (StateOf(EngineHost.Run(epoch, actions).table, id), Facts(epoch, actions));
      && (s == Some(Completed) ==>
            Replied(id, Sync) in facts || SawDone(id) in facts || Ordered(id, Complete) in facts)
      && (s == Some(Failed) ==> Replied(id, Failing) in facts || Ordered(id, Fail) in facts)
      && (s == Some(Running) ==> Replied(id, Async) in facts || Live(id) in facts)
      && (s == Some(Cancelled) ==> Listed(id) in facts || Ordered(id, Cancel) in facts)
      && s != Some(Interrupted)
  {
    hide AllBacked, EngineHost.Run, Facts;
    RunWarranted(epoch, actions);
  }

  // ---- running work is watched ----

  predicate Watches(pc: Pc, id: string) {
    pc == Tracking(id) || pc == Closing(id)
  }

  ghost predicate Watched(threads: seq<Pc>, id: string) {
    exists i :: 0 <= i < |threads| && Watches(threads[i], id)
  }

  ghost predicate WatchOk(h: Host) {
    && h.epoch in h.used
    && (forall id :: id in h.table.items && Active(h.table.items[id].state) ==> h.table.items[id].epoch in h.used)
    && (forall id :: StateOf(h.table, id) == Some(Running) ==> Watched(h.threads, id))
  }

  /** The epoch that owns an active item is one that was current once. */
  predicate Owned(t: Table, id: string, used: set<string>) {
    id in t.items && Active(t.items[id].state) ==> t.items[id].epoch in used
  }

  lemma {:induction false} MoveOwns(h: Host, id: string, to: WorkState, lease: Option<int>, now: int, k: string)
    requires h.epoch in h.used && Owned(h.table, k, h.used)
    ensures Move(h, id, to, lease, now).Ok? ==> Owned(Move(h, id, to, lease, now).value, k, h.used)
  {
  }

  lemma {:induction false} OtherOwns(t: Table, id: string, now: int, epoch: string, lease: int, used: set<string>,
                                     k: string)
    requires Owned(t, k, used)
    ensures Transition(t, id, Cancelled, None, None, None, None, now).Ok? ==>
      Owned(Transition(t, id, Cancelled, None, None, None, None, now).value, k, used)
    ensures RenewLease(t, id, epoch, lease, now).Ok? ==> Owned(RenewLease(t, id, epoch, lease, now).value, k, used)
  {
  }

  lemma {:induction false} SubmitOwns(t: Table, r: Request, now: int, used: set<string>, k: string)
    requires Owned(t, k, used)
    ensures Submit(t, r, now).Ok? ==> Owned(Submit(t, r, now).value.0, k, used)
  {
    hide Blank, KeyTaken;
  }

  lemma {:induction false} OwnedStep(h: Host, a: Action, k: string)
    requires LedgerOk(h.table) && h.epoch in h.used && Owned(h.table, k, h.used)
    ensures Owned(Step(h, a).table, k, Step(h, a).used) && Step(h, a).epoch in Step(h, a).used
  {
    hide LedgerOk, Submit, Move, Transition, RenewLease, Recover, Stale, Resolvable, DoReadDrain, DoAcquire,
      DoStartScan, DoListQueued, DoNext, DoReadFresh, DoAbandon, DoSend, DoReconcile, DoListStale, DoOperator, DoSettle,
      DoTrack, DoRestart, Owned, SetDrain;
    match a
    case ASubmit(r, _, now) => SubmitOwns(h.table, r, now, h.used, k);
    case AClaim(i, now) =>
      if At(h, i) && h.threads[i].SawOpen? { MoveOwns(h, h.threads[i].id, Dispatching, Some(LEASE), now, k); }
    case ASettle(i, now) => SettleOwns(h, i, now, k);
    case AReclaim(i, now) =>
      if At(h, i) && h.threads[i].Reclaiming? { MoveOwns(h, h.threads[i].id, Running, Some(LEASE), now, k); }
    case ATrack(i, what, now) => TrackOwns(h, i, what, now, k);
    case ARetire(i, now) =>
      if At(h, i) && h.threads[i].Retiring? { OtherOwns(h.table, h.threads[i].id, now, h.epoch, LEASE, h.used, k); }
    case AResolve(i, now) =>
      if At(h, i) && h.threads[i].Resolving? {
        MoveOwns(h, h.threads[i].id, Target(h.threads[i].resolution), None, now, k);
      }
    case ARenew(id, owner, lease, now) => OtherOwns(h.table, id, now, owner, lease, h.used, k);
    case ARestart(epoch, now) => RestartOwns(h, epoch, now, k);
    case _ => QuietOwns(h, a, k);
  }

  lemma {:induction false} RestartOwns(h: Host, epoch: string, now: int, k: string)
    requires LedgerOk(h.table) && h.epoch in h.used && Owned(h.table, k, h.used)
    ensures var g := DoRestart(h, epoch, now); Owned(g.table, k, g.used) && g.epoch in g.used
  {
    hide LedgerOk, Recover;
    if k in h.table.items { RecoverRows(h.table, epoch, now, k); }
    RecoverOk(h.table, epoch, now);
  }

  lemma {:induction false} QuietOwns(h: Host, a: Action, k: string)
    requires a.AReadDrain? || a.AAcquire? || a.AStartScan? || a.AListQueued? || a.ANext? || a.AReadFresh?
      || a.AAbandon? || a.ASend? || a.AReconcile? || a.AListStale? || a.AOperator? || a.ASetDrain?
    requires h.epoch in h.used && Owned(h.table, k, h.used)
    ensures var g := Step(h, a); Owned(g.table, k, g.used) && g.epoch in g.used
  {
    hide Step;
    QuietRows(h, a);
  }

  lemma {:induction false} SettleOwns(h: Host, i: nat, now: int, k: string)
    requires h.epoch in h.used && Owned(h.table, k, h.used)
    ensures var g := DoSettle(h, i, now);
      Owned(g.table, k, g.used) && g.epoch in g.used
  {
    hide Move, Owned;
    if At(h, i) && h.threads[i].Answered? {
      MoveOwns(h, h.threads[i].id, Failed, None, now, k);
      MoveOwns(h, h.threads[i].id, Running, Some(LEASE), now, k);
      MoveOwns(h, h.threads[i].id, Completed, None, now, k);
    }
  }

  lemma {:induction false} TrackOwns(h: Host, i: nat, what: Track, now: int, k: string)
    requires h.epoch in h.used && Owned(h.table, k, h.used)
    ensures var g := DoTrack(h, i, what, now);
      Owned(g.table, k, g.used) && g.epoch in g.used
  {
    hide Move, RenewLease, Owned;
    if At(h, i) && (h.threads[i].Tracking? || h.threads[i].Closing?) {
      var id := h.threads[i].id;
      MoveOwns(h, id, Uncertain, None, now, k);
      MoveOwns(h, id, Completed, None, now, k);
      OtherOwns(h.table, id, now, h.epoch, LEASE, h.used, k);
    }
  }

  /** A tracker stops watching only when its item is no longer running. */
  lemma {:induction false} TrackerStays(h: Host, i: nat, what: Track, now: int)
    requires At(h, i) && (h.threads[i].Tracking? || h.threads[i].Closing?)
    ensures var (id, g) := (h.threads[i].id, DoTrack(h, i, what, now));
      && |g.threads| == |h.threads| && (forall j :: 0 <= j < |h.threads| && j != i ==> g.threads[j] == h.threads[j])
      && (Watches(g.threads[i], id) || StateOf(g.table, id) != Some(Running))
  {
    hide Move, RenewLease;
    var id := h.threads[i].id;
    MoveStates(h, id, Completed, None, now, id);
    MoveStates(h, id, Uncertain, None, now, id);
  }

  /** No other step but a restart touches a tracker. */
  lemma {:induction false} OthersPass(h: Host, a: Action, j: nat)
    requires At(h, j) && (h.threads[j].Tracking? || h.threads[j].Closing?)
    requires !a.ARestart? && !a.ATrack?
    ensures var g := Step(h, a); j < |g.threads| && g.threads[j] == h.threads[j]
  {
    hide *;
    if a.ASubmit? || a.AReadDrain? || a.AAcquire? || a.AStartScan? || a.AListQueued? || a.ANext? || a.AReadFresh? {
      QueuePasses(h, a, j);
    } else if a.AClaim? || a.AAbandon? || a.ASend? || a.ASettle? || a.AReclaim? {
      EnginePasses(h, a, j);
    } else {
      RestPasses(h, a, j);
    }
  }

  lemma {:induction false} QueuePasses(h: Host, a: Action, j: nat)
    requires At(h, j) && (h.threads[j].Tracking? || h.threads[j].Closing?)
    requires a.ASubmit? || a.AReadDrain? || a.AAcquire? || a.AStartScan? || a.AListQueued? || a.ANext? || a.AReadFresh?
    ensures var g := Step(h, a); j < |g.threads| && g.threads[j] == h.threads[j]
  {
    hide Submit, DoClaim, DoAbandon, DoSend, DoSettle, DoReconcile, DoReclaim, DoTrack, DoListStale, DoRetire,
      DoOperator, DoResolve, DoRenew, DoRestart, SetDrain;
  }

  lemma {:induction false} EnginePasses(h: Host, a: Action, j: nat)
    requires At(h, j) && (h.threads[j].Tracking? || h.threads[j].Closing?)
    requires a.AClaim? || a.AAbandon? || a.ASend? || a.ASettle? || a.AReclaim?
    ensures var g := Step(h, a); j < |g.threads| && g.threads[j] == h.threads[j]
  {
    hide Move, DoSubmit, DoReadDrain, DoAcquire, DoStartScan, DoListQueued, DoNext, DoReadFresh, DoReconcile, DoTrack,
      DoListStale, DoRetire, DoOperator, DoResolve, DoRenew, DoRestart, SetDrain;
  }

  lemma {:induction false} RestPasses(h: Host, a: Action, j: nat)
    requires At(h, j) && (h.threads[j].Tracking? || h.threads[j].Closing?)
    requires a.AReconcile? || a.AListStale? || a.ARetire? || a.AOperator? || a.AResolve? || a.ARenew? || a.ASetDrain?
    ensures var g := Step(h, a); j < |g.threads| && g.threads[j] == h.threads[j]
  {
    hide Move, Transition, RenewLease, Stale, Resolvable, DoSubmit, DoReadDrain, DoAcquire, DoStartScan, DoListQueued,
      DoNext, DoReadFresh, DoClaim, DoAbandon, DoSend, DoSettle, DoReclaim, DoTrack, DoRestart, SetDrain;
  }

  /** Work that starts running gets a watcher. */
  lemma {:induction false} NewWatcher(h: Host, a: Action, id: string)
    requires Puts(h, a, id, Running)
    requires StateOf(h.table, id) != Some(Running) && StateOf(Step(h, a).table, id) == Some(Running)
    ensures Watched(Step(h, a).threads, id)
  {
    hide Move, DoSubmit, DoReadDrain, DoAcquire, DoStartScan, DoListQueued, DoNext, DoReadFresh, DoClaim, DoAbandon,
      DoSend, DoReconcile, DoTrack, DoListStale, DoRetire, DoOperator, DoResolve, DoRenew, DoRestart, SetDrain;
    var g := Step(h, a);
    if a.ASettle? {
      ReplySettles(h, a.i, a.now, id);
      AcceptedIsTracked(h, a.i, a.now);
    }
    assert Watches(g.threads[|h.threads|], id);
  }

  lemma {:induction false} StillWatched(h: Host, a: Action, id: string)
    requires !a.ARestart? && Watched(h.threads, id) && StateOf(Step(h, a).table, id) == Some(Running)
    ensures Watched(Step(h, a).threads, id)
  {
    hide Step, DoTrack, StateOf;
    var g := Step(h, a);
    var j :| 0 <= j < |h.threads| && Watches(h.threads[j], id);
    if a.ATrack? {
      assert g == DoTrack(h, a.i, a.what, a.now) by { StepTracks(h, a); }
      if At(h, a.i) && (h.threads[a.i].Tracking? || h.threads[a.i].Closing?) {
        TrackerStays(h, a.i, a.what, a.now);
      } else {
        IdleTrack(h, a);
      }
    } else {
      OthersPass(h, a, j);
    }
    assert Watches(g.threads[j], id);
  }

  lemma {:induction false} StepTracks(h: Host, a: Action)
    requires a.ATrack?
    ensures Step(h, a) == DoTrack(h, a.i, a.what, a.now)
  {
    hide DoTrack;
  }

  lemma {:induction false} IdleTrack(h: Host, a: Action)
    requires a.ATrack? && !(At(h, a.i) && (h.threads[a.i].Tracking? || h.threads[a.i].Closing?))
    ensures DoTrack(h, a.i, a.what, a.now) == h
  {
  }

  /** Every epoch that ever owned active work is a past one after a restart, so nothing is left running. */
  lemma {:induction false} RestartRunsNothing(h: Host, epoch: string, now: int, id: string)
    requires LedgerOk(h.table) && Owned(h.table, id, h.used) && epoch !in h.used
    ensures StateOf(DoRestart(h, epoch, now).table, id) != Some(Running)
  {
    hide LedgerOk, Recover;
    RecoverOk(h.table, epoch, now);
  }

  lemma {:induction false} WatchOne(h: Host, a: Action, id: string)
    requires LedgerOk(h.table) && Owned(h.table, id, h.used)
    requires StateOf(h.table, id) == Some(Running) ==> Watched(h.threads, id)
    requires StateOf(Step(h, a).table, id) == Some(Running)
    ensures Watched(Step(h, a).threads, id)
  {
    if a.ARestart? {
      hide LedgerOk, Recover, Watched, StateOf, Owned;
      if a.epoch !in h.used {
        RestartRunsNothing(h, a.epoch, a.now, id);
      }
    } else {
      hide LedgerOk, Step, Watched, Puts, StateOf, Owned;
      EntersBy(h, a, id);
      if StateOf(h.table, id) == Some(Running) {
        StillWatched(h, a, id);
      } else {
        NewWatcher(h, a, id);
      }
    }
  }

  lemma {:induction false} WatchStep(h: Host, a: Action)
    requires LedgerOk(h.table) && WatchOk(h)
    ensures WatchOk(Step(h, a))
  {
    hide LedgerOk, Step, Watched, StateOf;
    var g := Step(h, a);
    assert g.epoch in g.used by {
      assert Owned(h.table, "", h.used);
      OwnedStep(h, a, "");
    }
    forall id | id in g.table.items && Active(g.table.items[id].state) ensures g.table.items[id].epoch in g.used {
      assert Owned(h.table, id, h.used);
      OwnedStep(h, a, id);
    }
    forall id | StateOf(g.table, id) == Some(Running) ensures Watched(g.threads, id) {
      assert Owned(h.table, id, h.used);
      WatchOne(h, a, id);
    }
  }

  lemma {:induction false} BootWatches(epoch: string)
    ensures WatchOk(Boot(epoch))
  {
  }

  /** Over every interleaving, crash and restart: what the ledger calls running has a live thread that tracks it. */
  lemma {:induction false} RunningIsTracked(epoch: string, actions: seq<Action>)
    ensures var h := EngineHost.Run(epoch, actions);
      WatchOk(h)
      && forall id :: StateOf(h.table, id) == Some(Running) ==>
           exists i :: 0 <= i < |h.threads| && (h.threads[i] == Tracking(id) || h.threads[i] == Closing(id))
    decreases |actions|
  {
    hide LedgerOk, Step;
    if actions == [] {
      BootWatches(epoch);
    } else {
      var n := |actions| - 1;
      RunningIsTracked(epoch, actions[..n]);
      RunOk(epoch, actions[..n]);
      WatchStep(EngineHost.Run(epoch, actions[..n]), actions[n]);
    }
    forall id | StateOf(EngineHost.Run(epoch, actions).table, id) == Some(Running)
      ensures Watched(EngineHost.Run(epoch, actions).threads, id) {
    }
  }
}
