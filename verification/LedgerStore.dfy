/** `WorkLedger` as the object it is: rows, edges and events updated in place, one transaction a
    method (control_plane.py:162-606), and its invariant over every run. */
module LedgerStore {
  import opened OrderedDict
  import opened Sequences
  import opened WorkLedger

  class Ledger {
    var items: map<string, Item>
    var order: seq<string>
    var edges: seq<Edge>
    var log: seq<Entry>
    var drain: Drain

    constructor ()
      ensures Contents() == EMPTY && Valid()
    {
      items, order, edges, log, drain := map[], [], [], [], Drain(false, "", None);
      new;
      EmptyOk();
    }

    function Contents(): Table
      reads this
    {
      Table(items, order, edges, log, drain)
    }

    ghost predicate Valid()
      reads this
    {
      LedgerOk(Contents())
    }

    /** The row holding an idempotency key. */
    method FindKey(key: string) returns (found: Option<string>)
      requires Valid()
      ensures found.None? <==> !KeyTaken(Contents(), key)
      ensures found.Some? ==> found.value in items && items[found.value].key == key
    {
      hide LegalLog, ItemOk, Forest, KeysUnique, NoRepeats, Replay;
      for i := 0 to |order|
        invariant forall j :: 0 <= j < i ==> order[j] in items && items[order[j]].key != key
      {
        if items[order[i]].key == key {
          return Some(order[i]);
        }
      }
      assert !KeyTaken(Contents(), key) by {
        forall id | id in items ensures items[id].key != key {
          assert id in order;
        }
      }
      return None;
    }

    /** `submit`: the id of the row that now holds the key, whether it was created, and the row. */
    method SubmitItem(r: Request, now: int) returns (o: Result<(string, bool, Item)>)
      requires Valid()
      modifies this
      ensures Valid()
      ensures match Submit(old(Contents()), r, now)
        case Err(e) => o == Err(e) && Contents() == old(Contents())
        case Ok((t, created)) =>
          && Contents() == t && o.Ok? && o.value.1 == created && (created ==> o.value.0 == r.id)
          && o.value.0 in items && items[o.value.0] == o.value.2 && o.value.2.key == r.key
    {
      hide LedgerOk, Blank, KeyTaken;
      if Submit(Contents(), r, now).Ok? {
        SubmitOk(Contents(), r, now);
      }
      if Blank(r.engine) {
        return Err(EngineRequired);
      }
      if Blank(r.key) {
        return Err(KeyRequired);
      }
      var held := FindKey(r.key);
      if held.Some? {
        return Ok((held.value, false, items[held.value]));
      }
      if r.parent != "" && r.parent !in items {
        return Err(NoParent);
      }
      if r.id in items {
        return Err(DuplicateId);
      }
      items := items[r.id := NewItem(r, now)];
      order := order + [r.id];
      if r.parent != "" {
        edges := edges + [NewEdge(r, now)];
      } else {
        assert edges + [] == edges;
      }
      log := log + [Submitted(r.id)];
      return Ok((r.id, true, items[r.id]));
    }

    /** `transition`. */
    method TransitionItem(id: string, to: WorkState, owner: Option<string>, leaseSeconds: Option<int>,
                          outcome: Option<string>, error: Option<string>, now: int) returns (o: Result<Item>)
      requires Valid()
      modifies this
      ensures Valid()
      ensures match Transition(old(Contents()), id, to, owner, leaseSeconds, outcome, error, now)
        case Err(e) => o == Err(e) && Contents() == old(Contents())
        case Ok(t) => Contents() == t && id in t.items && o == Ok(t.items[id])
    {
      hide LedgerOk;
      if Transition(Contents(), id, to, owner, leaseSeconds, outcome, error, now).Ok? {
        TransitionOk(Contents(), id, to, owner, leaseSeconds, outcome, error, now);
      }
      if id !in items {
        return Err(NotFound);
      }
      var row := items[id];
      if to != row.state && !Allowed(row.state, to) {
        return Err(BadTransition);
      }
      if row.state.Uncertain? && to.Running? && owner.None? {
        return Err(OwnerRequired);
      }
      var lease := if leaseSeconds.Some? then Some(now + Least1(leaseSeconds.value)) else row.lease;
      var dispatchedAt, completedAt, attempt := row.dispatchedAt, row.completedAt, row.attempt;
      if to.Dispatching? && !row.state.Dispatching? {
        dispatchedAt, attempt := Some(now), attempt + 1;
      }
      if Terminal(to) {
        completedAt, lease := Some(now), None;
      } else if !Active(to) {
        lease := None;
      }
      var next := row.(state := to, epoch := if owner.Some? then owner.value
        else row.epoch, lease := lease, attempt := attempt,
                       outcome := if outcome.Some? then outcome.value else row.outcome,
                       error := if error.Some? then error.value else row.error,
                       updatedAt := now, dispatchedAt := dispatchedAt, completedAt := completedAt);
      items := items[id := next];
      log := log + [Moved(id, to)];
      return Ok(next);
    }

    /** `renew_lease`. */
    method Renew(id: string, owner: string, leaseSeconds: int, now: int) returns (o: Result<Item>)
      requires Valid()
      modifies this
      ensures Valid()
      ensures match RenewLease(old(Contents()), id, owner, leaseSeconds, now)
        case Err(e) => o == Err(e) && Contents() == old(Contents())
        case Ok(t) => Contents() == t && id in t.items && o == Ok(t.items[id])
    {
      hide LedgerOk;
      if RenewLease(Contents(), id, owner, leaseSeconds, now).Ok? {
        RenewOk(Contents(), id, owner, leaseSeconds, now);
      }
      if id in items && items[id].epoch == owner && Active(items[id].state) {
        items := items[id := items[id].(lease := Some(now + Least1(leaseSeconds)), updatedAt := now)];
        return Ok(items[id]);
      }
      return Err(NotOwned);
    }

    /** The select of `recover_orphaned_running`. */
    method FindOrphans(current: string) returns (ids: seq<string>)
      ensures ids == OrphanIds(Contents(), order, current)
    {
      hide Active, OrphanIds;
      ids := [];
      assert order[0..] == order && [] + OrphanIds(Contents(), order, current) == OrphanIds(Contents(), order, current);
      for i := 0 to |order|
        invariant ids + OrphanIds(Contents(), order[i..], current) == OrphanIds(Contents(), order, current)
      {
        OrphanStep(Contents(), order, i, current);
        ghost var rest := OrphanIds(Contents(), order[i + 1..], current);
        if order[i] in items && Active(items[order[i]].state) && items[order[i]].epoch != current {
          Associate(ids, [order[i]], rest);
          ids := ids + [order[i]];
        }
      }
      NoOrphans(Contents(), order, current);
      assert ids + [] == ids;
    }

    /** `recover_orphaned_running`: the worker's first act. */
    method RecoverOrphanedRunning(current: string, now: int) returns (ids: seq<string>)
      requires Valid()
      modifies this
      ensures Valid() && Contents() == Recover(old(Contents()), current, now)
      ensures forall id :: id in ids <==> id in old(order) && Orphaned(old(Contents()), id, current)
    {
      hide LedgerOk, Orphaned;
      RecoverOk(Contents(), current, now);
      ghost var was := Contents();
      ids := FindOrphans(current);
      assert RecoverAll(was, ids, now) == Recover(was, current, now);
      hide Recover, OrphanIds, Active, Valid, RecoverAll;
      assert ids[0..] == ids;
      for i := 0 to |ids|
        invariant RecoverAll(Contents(), ids[i..], now) == RecoverAll(was, ids, now)
      {
        RecoverStep(Contents(), ids, i, now);
        var id := ids[i];
        if id in items {
          items := items[id := items[id].(state := Uncertain, lease := None, updatedAt := now, error := RESTARTED)];
          log := log + [Recovered(id)];
        }
      }
      NoRecovery(Contents(), ids, now);
    }

    /** `set_drain`. */
    method SetDrainState(enabled: bool, reason: string, now: int) returns (value: Drain)
      requires Valid()
      modifies this`drain
      ensures Valid() && Contents() == SetDrain(old(Contents()), enabled, reason, now) && value == drain
    {
      DrainOk(Contents(), enabled, reason, now);
      var kept := if |reason| <= REASON_MAX then reason else reason[..REASON_MAX];
      drain := Drain(enabled, kept, if enabled then Some(now) else None);
      return drain;
    }

    /** `children` filtered by state, in edge order. */
    method Children(parent: string, states: set<WorkState>) returns (ids: seq<string>)
      requires Valid()
      ensures forall id :: id in ids <==>
        exists k :: 0 <= k < |edges| && edges[k].parent == parent && edges[k].child == id && id in items
          && items[id].state in states
      ensures NoRepeats(ids)
    {
      hide LegalLog, ItemOk, KeysUnique, Replay, Before;
      ids := [];
      for i := 0 to |edges|
        invariant forall id :: id in ids <==>
          exists k :: 0 <= k < i && edges[k].parent == parent && edges[k].child == id && id in items
            && items[id].state in states
        invariant NoRepeats(ids)
      {
        var e := edges[i];
        if e.parent == parent && e.child in items && items[e.child].state in states {
          assert e.child !in ids;
          ids := ids + [e.child];
        }
      }
    }
  }

  lemma OrphanStep(t: Table, ids: seq<string>, i: nat, epoch: string)
    requires i < |ids|
    ensures OrphanIds(t, ids[i..], epoch)
      == if Orphaned(t, ids[i], epoch) then [ids[i]] + OrphanIds(t, ids[i + 1..], epoch)
        else OrphanIds(t, ids[i + 1..], epoch)
  {
    hide Orphaned;
    assert ids[i..][1..] == ids[i + 1..];
    assert [] + OrphanIds(t, ids[i + 1..], epoch) == OrphanIds(t, ids[i + 1..], epoch);
  }

  lemma NoOrphans(t: Table, ids: seq<string>, epoch: string)
    ensures OrphanIds(t, ids[|ids|..], epoch) == []
  {
  }

  lemma RecoverStep(t: Table, ids: seq<string>, i: nat, now: int)
    requires i < |ids|
    ensures RecoverAll(t, ids[i..], now)
      == RecoverAll(if ids[i] in t.items then RecoverOne(t, ids[i], now) else t, ids[i + 1..], now)
  {
    hide RecoverOne;
    assert ids[i..][1..] == ids[i + 1..];
  }

  lemma NoRecovery(t: Table, ids: seq<string>, now: int)
    ensures RecoverAll(t, ids[|ids|..], now) == t
  {
  }

  // ---- every run ----

  datatype Op =
    | OpSubmit(r: Request, now: int)
    | OpTransition(id: string, to: WorkState, owner: Option<string>, leaseSeconds: Option<int>,
      outcome: Option<string>, error: Option<string>, now: int)
    | OpRenew(id: string, holder: string, seconds: int, now: int)
    | OpRecover(epoch: string, now: int)
    | OpDrain(enabled: bool, reason: string, now: int)

  /** The table after one call; a call that raises leaves it as it was. */
  function Apply(t: Table, op: Op): Table {
    match op
    case OpSubmit(r, now) => (match Submit(t, r, now) case Ok((u, _)) => u case Err(_) => t)
    case OpTransition(id, to, owner, lease, outcome, error, now) =>
      (match Transition(t, id, to, owner, lease, outcome, error, now) case Ok(u) => u case Err(_) => t)
    case OpRenew(id, owner, lease, now) => (match RenewLease(t, id, owner, lease, now) case Ok(u) => u case Err(_) => t)
    case OpRecover(epoch, now) => Recover(t, epoch, now)
    case OpDrain(enabled, reason, now) => SetDrain(t, enabled, reason, now)
  }

  function Run(ops: seq<Op>): Table {
    if ops == [] then EMPTY else Apply(Run(ops[..|ops| - 1]), ops[|ops| - 1])
  }

  lemma ApplyOk(t: Table, op: Op)
    requires LedgerOk(t)
    ensures LedgerOk(Apply(t, op))
  {
    hide LedgerOk, Submit, Transition, RenewLease, Recover;
    match op
    case OpSubmit(r, now) =>
      if Submit(t, r, now).Ok? { SubmitOk(t, r, now); }
    case OpTransition(id, to, owner, lease, outcome, error, now) =>
      if Transition(t, id, to, owner, lease, outcome, error,
        now).Ok? { TransitionOk(t, id, to, owner, lease, outcome, error, now); }
    case OpRenew(id, owner, lease, now) =>
      if RenewLease(t, id, owner, lease, now).Ok? { RenewOk(t, id, owner, lease, now); }
    case OpRecover(epoch, now) => RecoverOk(t, epoch, now);
    case OpDrain(enabled, reason, now) => DrainOk(t, enabled, reason, now);
  }

  lemma DrainOk(t: Table, enabled: bool, reason: string, now: int)
    requires LedgerOk(t)
    ensures LedgerOk(SetDrain(t, enabled, reason, now))
  {
    hide LegalLog, ItemOk, Forest, KeysUnique, NoRepeats, Replay;
  }

  /** The log refines the table in every reachable state: every event is a submission, a stutter or an allowed edge;
      folding an item's events gives its state and attempt; leases, completion times and attempts agree with the
      state; the graph is a forest; keys are unique. */
  lemma {:induction false} ReachableIsOk(ops: seq<Op>)
    ensures LedgerOk(Run(ops))
    decreases |ops|
  {
    hide LedgerOk, Apply;
    EmptyOk();
    if ops != [] {
      ReachableIsOk(ops[..|ops| - 1]);
      ApplyOk(Run(ops[..|ops| - 1]), ops[|ops| - 1]);
    }
  }

  /** The log is append-only. */
  lemma LogOnlyGrows(t: Table, op: Op)
    requires LedgerOk(t)
    ensures t.log <= Apply(t, op).log
  {
    hide LegalLog, ItemOk, Forest, KeysUnique, Replay, Blank, KeyTaken;
    match op
    case OpRecover(epoch, now) =>
      RecoverGrows(t, OrphanIds(t, t.order, epoch), now);
    case _ =>
  }

  lemma {:induction false} RecoverGrows(t: Table, ids: seq<string>, now: int)
    ensures t.log <= RecoverAll(t, ids, now).log
    decreases |ids|
  {
    if ids != [] {
      RecoverGrows(if ids[0] in t.items then RecoverOne(t, ids[0], now) else t, ids[1..], now);
    }
  }

  /** A completed item stays as completed as it is, whatever is called later. */
  lemma {:induction false} CompletedStays(ops: seq<Op>, more: seq<Op>, id: string)
    requires id in Run(ops).items && Run(ops).items[id].state.Completed?
    ensures var u := Run(ops + more);
      id in u.items && u.items[id].state.Completed? && u.items[id].attempt == Run(ops).items[id].attempt
    decreases |more|
  {
    hide LedgerOk, Run, Apply, Replay;
    RunGrows(ops, more);
    var t, u := Run(ops), Run(ops + more);
    ReachableIsOk(ops);
    ReachableIsOk(ops + more);
    TableReadsLog(t);
    TableReadsLog(u);
    LogLegal(u);
    assert u.log[..|t.log|] == t.log;
    CompletedIsFinal(u.log, |t.log|, id);
  }

  lemma LogLegal(t: Table)
    requires LedgerOk(t)
    ensures LegalLog(t.log)
  {
  }

  lemma TableReadsLog(t: Table)
    requires LedgerOk(t)
    ensures forall id :: id in t.items <==> Replay(t.log, id).Trail?
    ensures forall id :: id in t.items ==>
      Replay(t.log, id).state == t.items[id].state && Replay(t.log, id).attempt == t.items[id].attempt
  {
    hide LegalLog, Forest, KeysUnique, Replay, NoRepeats;
    forall id ensures id in t.items <==> Replay(t.log, id).Trail? {
      if id in t.items { assert ItemOk(t.log, id, t.items[id]); }
    }
    forall id | id in t.items ensures Replay(t.log, id).state == t.items[id].state
      && Replay(t.log, id).attempt == t.items[id].attempt {
      assert ItemOk(t.log, id, t.items[id]);
    }
  }

  lemma {:induction false} RunGrows(ops: seq<Op>, more: seq<Op>)
    ensures Run(ops).log <= Run(ops + more).log
    decreases |more|
  {
    hide LedgerOk, Apply;
    if more == [] {
      assert ops + more == ops;
    } else {
      var init := more[..|more| - 1];
      RunGrows(ops, init);
      assert (ops + more)[..|ops + more| - 1] == ops + init;
      ReachableIsOk(ops + init);
      LogOnlyGrows(Run(ops + init), more[|more| - 1]);
    }
  }
}
