/** The durable work ledger (control_plane.py): work items, the transition graph, leases, the
    parent/child edges and the append-only event log. Each method of the source is one
    SQLite transaction, so one atomic step here; `now` is the clock it reads. */
module WorkLedger {
  import opened OrderedDict
  import opened Sequences

  datatype WorkState = Queued | Dispatching | Running | Completed | Failed | Cancelled | Interrupted | Uncertain

  predicate Terminal(s: WorkState) {
    s.Completed? || s.Failed? || s.Cancelled?
  }

  predicate Active(s: WorkState) {
    s.Dispatching? || s.Running?
  }

  /** `ALLOWED_TRANSITIONS`. */
  predicate Allowed(from: WorkState, to: WorkState) {
    match from
    case Queued => to in {Dispatching, Cancelled}
    case Dispatching => to in {Running, Completed, Queued, Failed, Cancelled, Interrupted, Uncertain}
    case Running => to in {Completed, Failed, Cancelled, Interrupted, Uncertain}
    case Interrupted => to in {Queued, Cancelled, Uncertain}
    case Uncertain => to in {Queued, Running, Completed, Failed, Cancelled, Interrupted}
    case Completed => false
    case Failed => to.Queued?
    case Cancelled => to.Queued?
  }

  datatype Item = Item(
    key: string, engine: string, session: string, kind: string, payload: string,
    state: WorkState, epoch: string, lease: Option<int>, attempt: nat,
    outcome: string, error: string,
    createdAt: int, updatedAt: int, dispatchedAt: Option<int>, completedAt: Option<int>)

  datatype Edge = Edge(parent: string, child: string, relation: string, createdAt: int)

  /** One row of `work_events`; its sequence number is its position. */
  datatype Entry = Submitted(id: string) | Moved(id: string, to: WorkState) | Recovered(id: string)

  /** The `drain` record of `control_meta`. */
  datatype Drain = Drain(enabled: bool, reason: string, requestedAt: Option<int>)

  /** `order` is the insertion order of the item rows. */
  datatype Table = Table(items: map<string, Item>, order: seq<string>, edges: seq<Edge>, log: seq<Entry>, drain: Drain)

  const EMPTY := Table(map[], [], [], [], Drain(false, "", None))

  datatype Error = EngineRequired | KeyRequired | NoParent | DuplicateId | NotFound | BadTransition | OwnerRequired
    | NotOwned

  datatype Result<+T> = Ok(value: T) | Err(error: Error)

  // ---- submit ----

  datatype Request = Request(id: string, key: string, engine: string, session: string, kind: string,
                             payload: string, parent: string, relation: string)

  predicate KeyTaken(t: Table, key: string) {
    exists id :: id in t.items && t.items[id].key == key
  }

  function NewItem(r: Request, now: int): Item {
    Item(r.key, r.engine, r.session, OrElse(r.kind, "turn"), r.payload, Queued, "", None, 0, "{}", "", now, now, None,
      None)
  }

  function NewEdge(r: Request, now: int): Edge {
    Edge(r.parent, r.id, OrElse(r.relation, "spawned"), now)
  }

  /** The table after a submission, and whether a row was created. An empty parent is no parent. */
  function Submit(t: Table, r: Request, now: int): Result<(Table, bool)> {
    if Blank(r.engine) then Err(EngineRequired)
    else if Blank(r.key) then Err(KeyRequired)
    else if KeyTaken(t, r.key) then Ok((t, false))
    else if r.parent != "" && r.parent !in t.items then Err(NoParent)
    else if r.id in t.items then Err(DuplicateId)
    else
      Ok((t.(items := t.items[r.id := NewItem(r, now)],
             order := t.order + [r.id],
             edges := t.edges + (if r.parent == "" then [] else [NewEdge(r, now)]),
             log := t.log + [Submitted(r.id)]), true))
  }

  // ---- transition ----

  function Least1(n: int): int {
    if n < 1 then 1 else n
  }

  function Moved'(item: Item, to: WorkState, owner: Option<string>, leaseSeconds: Option<int>,
                  outcome: Option<string>, error: Option<string>, now: int): Item {
    var entering := to.Dispatching? && !item.state.Dispatching?;
    item.(
      state := to,
      epoch := if owner.Some? then owner.value else item.epoch,
      lease := if !Active(to) then None else if leaseSeconds.Some? then Some(now + Least1(leaseSeconds.value))
        else item.lease,
      attempt := if entering then item.attempt + 1 else item.attempt,
      outcome := if outcome.Some? then outcome.value else item.outcome,
      error := if error.Some? then error.value else item.error,
      updatedAt := now,
      dispatchedAt := if entering then Some(now) else item.dispatchedAt,
      completedAt := if Terminal(to) then Some(now) else item.completedAt)
  }

  /** Why a transition is refused, if it is. */
  function Refusal(t: Table, id: string, to: WorkState, owner: Option<string>): Option<Error> {
    if id !in t.items then Some(NotFound)
    else
      var from := t.items[id].state;
      if to != from && !Allowed(from, to) then Some(BadTransition)
      else if from.Uncertain? && to.Running? && owner.None? then Some(OwnerRequired)
      else None
  }

  function Transition(t: Table, id: string, to: WorkState, owner: Option<string>, leaseSeconds: Option<int>,
                      outcome: Option<string>, error: Option<string>, now: int): Result<Table>
  {
    match Refusal(t, id, to, owner)
    case Some(e) => Err(e)
    case None =>
      Ok(t.(items := t.items[id := Moved'(t.items[id], to, owner, leaseSeconds, outcome, error, now)],
            log := t.log + [Moved(id, to)]))
  }

  // ---- lease, recovery, drain ----

  function RenewLease(t: Table, id: string, epoch: string, leaseSeconds: int, now: int): Result<Table> {
    if id in t.items && t.items[id].epoch == epoch && Active(t.items[id].state) then
      Ok(t.(items := t.items[id := t.items[id].(lease := Some(now + Least1(leaseSeconds)), updatedAt := now)]))
    else Err(NotOwned)
  }

  predicate Orphaned(t: Table, id: string, epoch: string) {
    id in t.items && Active(t.items[id].state) && t.items[id].epoch != epoch
  }

  const RESTARTED := "worker restarted before completion was confirmed"

  function RecoverOne(t: Table, id: string, now: int): Table
    requires id in t.items
  {
    t.(items := t.items[id := t.items[id].(state := Uncertain, lease := None, updatedAt := now, error := RESTARTED)],
       log := t.log + [Recovered(id)])
  }

  function OrphanIds(t: Table, ids: seq<string>, epoch: string): (r: seq<string>)
    ensures forall id :: id in r <==> id in ids && Orphaned(t, id, epoch)
  {
    if ids == [] then []
    else (if Orphaned(t, ids[0], epoch) then [ids[0]] else []) + OrphanIds(t, ids[1..], epoch)
  }

  function RecoverAll(t: Table, ids: seq<string>, now: int): Table
    decreases |ids|
  {
    if ids == [] then t
    else RecoverAll(if ids[0] in t.items then RecoverOne(t, ids[0], now) else t, ids[1..], now)
  }

  /** `recover_orphaned_running`: rows selected first, then updated one by one, in one transaction. */
  function Recover(t: Table, epoch: string, now: int): Table {
    RecoverAll(t, OrphanIds(t, t.order, epoch), now)
  }

  const REASON_MAX := 500

  function SetDrain(t: Table, enabled: bool, reason: string, now: int): Table {
    t.(drain := Drain(enabled, if |reason| <= REASON_MAX then reason else reason[..REASON_MAX], if enabled
      then Some(now) else None))
  }

  // ---- what the log says ----

  /** The fold of one item's events. */
  datatype Trail = Absent | Trail(state: WorkState, attempt: nat, requeues: nat)

  function Follow(trail: Trail, id: string, e: Entry): Trail {
    if e.id != id then trail
    else
      match e
      case Submitted(_) => Trail(Queued, 0, 0)
      case Recovered(_) => if trail.Absent? then trail else trail.(state := Uncertain)
      case Moved(_, to) =>
        if trail.Absent? then trail
        else
          Trail(to, if to.Dispatching? && !trail.state.Dispatching? then trail.attempt + 1 else trail.attempt,
                if to.Queued? && !trail.state.Queued? then trail.requeues + 1 else trail.requeues)
  }

  function Replay(log: seq<Entry>, id: string): Trail {
    if log == [] then Absent else Follow(Replay(log[..|log| - 1], id), id, log[|log| - 1])
  }

  /** One event against what the log said before: a submission of something new, a stutter, an edge of the
      transition graph, or a recovery, which is an edge as well. */
  predicate LegalStep(trail: Trail, e: Entry) {
    match e
    case Submitted(_) => trail.Absent?
    case Moved(_, to) => trail.Trail? && (to == trail.state || Allowed(trail.state, to))
    case Recovered(_) => trail.Trail? && Active(trail.state)
  }

  ghost predicate LegalLog(log: seq<Entry>) {
    forall i :: 0 <= i < |log| ==> LegalStep(Replay(log[..i], log[i].id), log[i])
  }

  lemma ReplayAppend(log: seq<Entry>, e: Entry, id: string)
    ensures Replay(log + [e], id) == Follow(Replay(log, id), id, e)
  {
    assert (log + [e])[..|log|] == log;
  }

  lemma LegalAppend(log: seq<Entry>, e: Entry)
    requires LegalLog(log) && LegalStep(Replay(log, e.id), e)
    ensures LegalLog(log + [e])
  {
    forall i | 0 <= i < |log + [e]| ensures LegalStep(Replay((log + [e])[..i], (log + [e])[i].id), (log + [e])[i]) {
      if i < |log| {
        assert (log + [e])[..i] == log[..i];
      } else {
        assert (log + [e])[..i] == log;
      }
    }
  }

  lemma LegalPrefix(log: seq<Entry>, n: nat)
    requires LegalLog(log) && n <= |log|
    ensures LegalLog(log[..n])
  {
    forall i | 0 <= i < n ensures LegalStep(Replay(log[..n][..i], log[..n][i].id), log[..n][i]) {
      assert log[..n][..i] == log[..i];
    }
  }

  /** An item is dispatched at most once per stay in the queue. */
  lemma {:induction false} AttemptsBounded(log: seq<Entry>, id: string)
    requires LegalLog(log)
    ensures var t := Replay(log, id);
      t.Trail? ==>
        && t.attempt + (if t.state.Queued? then 1 else 0) <= 1 + t.requeues
        && (!t.state.Queued? && !t.state.Cancelled? ==> t.attempt >= 1)
    decreases |log|
  {
    if log != [] {
      var n := |log| - 1;
      LegalPrefix(log, n);
      AttemptsBounded(log[..n], id);
      assert LegalStep(Replay(log[..n], log[n].id), log[n]);
    }
  }

  /** `completed` is absorbing. */
  lemma {:induction false} CompletedIsFinal(log: seq<Entry>, n: nat, id: string)
    requires LegalLog(log) && n <= |log| && Replay(log[..n], id).Trail? && Replay(log[..n], id).state.Completed?
    ensures Replay(log, id) == Replay(log[..n], id)
    decreases |log|
  {
    if n < |log| {
      var m := |log| - 1;
      var before, e := log[..m], log[m];
      LegalPrefix(log, m);
      assert before[..n] == log[..n];
      assert LegalStep(Replay(before, e.id), e) && Replay(log, id) == Follow(Replay(before, id), id, e);
      hide LegalLog, Replay;
      CompletedIsFinal(before, n, id);
    } else {
      assert log[..n] == log;
    }
  }

  // ---- the ledger invariant ----

  ghost predicate ItemOk(log: seq<Entry>, id: string, item: Item) {
    && (var t := Replay(log, id); t.Trail? && t.state == item.state && t.attempt == item.attempt)
    && (item.lease.Some? ==> Active(item.state))
    && (Terminal(item.state) ==> item.completedAt.Some?)
    && (!item.state.Queued? && !item.state.Cancelled? ==> item.attempt >= 1 && item.dispatchedAt.Some?)
    && (item.attempt >= 1 ==> item.dispatchedAt.Some?)
  }

  ghost predicate NoRepeats<T>(s: seq<T>) {
    forall i, j :: 0 <= i < j < |s| ==> s[i] != s[j]
  }

  /** `a` was inserted before `b`. */
  ghost predicate Before(order: seq<string>, a: string, b: string) {
    exists i, j :: 0 <= i < j < |order| && order[i] == a && order[j] == b
  }

  /** Parents are older than their children and every child has one parent. */
  ghost predicate Forest(order: seq<string>, edges: seq<Edge>) {
    && (forall i :: 0 <= i < |edges| ==> Before(order, edges[i].parent, edges[i].child))
    && (forall i, j :: 0 <= i < j < |edges| ==> edges[i].child != edges[j].child)
  }

  ghost predicate KeysUnique(items: map<string, Item>) {
    forall a, b :: a in items && b in items && items[a].key == items[b].key ==> a == b
  }

  ghost predicate LedgerOk(t: Table) {
    && LegalLog(t.log)
    && (forall id :: id in t.items ==> ItemOk(t.log, id, t.items[id]))
    && (forall id :: id !in t.items ==> Replay(t.log, id).Absent?)
    && NoRepeats(t.order) && (forall id :: id in t.order <==> id in t.items)
    && Forest(t.order, t.edges)
    && KeysUnique(t.items)
    && |t.drain.reason| <= REASON_MAX && (t.drain.requestedAt.Some? <==> t.drain.enabled)
  }

  lemma EmptyOk()
    ensures LedgerOk(EMPTY)
  {
  }

  lemma BeforeGrows(order: seq<string>, id: string, a: string, b: string)
    requires Before(order, a, b)
    ensures Before(order + [id], a, b)
  {
    var i, j :| 0 <= i < j < |order| && order[i] == a && order[j] == b;
    assert (order + [id])[i] == a && (order + [id])[j] == b;
  }

  lemma BeforeMembers(order: seq<string>, a: string, b: string)
    requires Before(order, a, b)
    ensures a in order && b in order
  {
  }

  lemma ForestGrows(order: seq<string>, edges: seq<Edge>, id: string, parent: string, e: Edge)
    requires Forest(order, edges) && id !in order && parent in order && e.parent == parent && e.child == id
    ensures Forest(order + [id], edges + [e])
  {
    var o, es := order + [id], edges + [e];
    forall i | 0 <= i < |es| ensures Before(o, es[i].parent, es[i].child) {
      if i < |edges| {
        BeforeGrows(order, id, edges[i].parent, edges[i].child);
      } else {
        var k :| 0 <= k < |order| && order[k] == parent;
        assert o[k] == parent && o[|order|] == id;
      }
    }
    forall i, j | 0 <= i < j < |es| ensures es[i].child != es[j].child {
      BeforeMembers(order, edges[i].parent, edges[i].child);
    }
  }

  lemma ForestKept(order: seq<string>, edges: seq<Edge>, id: string)
    requires Forest(order, edges)
    ensures Forest(order + [id], edges)
  {
    forall i | 0 <= i < |edges| ensures Before(order + [id], edges[i].parent, edges[i].child) {
      BeforeGrows(order, id, edges[i].parent, edges[i].child);
    }
  }

  lemma OtherReplays(log: seq<Entry>, e: Entry)
    ensures forall id :: id != e.id ==> Replay(log + [e], id) == Replay(log, id)
  {
    forall id | id != e.id ensures Replay(log + [e], id) == Replay(log, id) {
      ReplayAppend(log, e, id);
    }
  }

  lemma SubmitForest(t: Table, r: Request, now: int)
    requires LedgerOk(t) && Submit(t, r, now).Ok? && Submit(t, r, now).value.1
    ensures Forest(t.order + [r.id], Submit(t, r, now).value.0.edges)
  {
    hide LegalLog, ItemOk, Replay;
    assert r.id !in t.order;
    if r.parent == "" {
      ForestKept(t.order, t.edges, r.id);
      assert Submit(t, r, now).value.0.edges == t.edges;
    } else {
      ForestGrows(t.order, t.edges, r.id, r.parent, NewEdge(r, now));
    }
  }

  lemma SubmitKeys(t: Table, r: Request, now: int)
    requires KeysUnique(t.items) && Submit(t, r, now).Ok? && Submit(t, r, now).value.1
    ensures KeysUnique(Submit(t, r, now).value.0.items)
  {
  }

  lemma SubmitOk(t: Table, r: Request, now: int)
    requires LedgerOk(t) && Submit(t, r, now).Ok?
    ensures LedgerOk(Submit(t, r, now).value.0)
  {
    hide Forest, KeysUnique, Replay, LegalLog, Blank, KeyTaken;
    var (u, created) := Submit(t, r, now).value;
    if created {
      var e := Submitted(r.id);
      LegalAppend(t.log, e);
      ReplayAppend(t.log, e, r.id);
      OtherReplays(t.log, e);
      SubmitForest(t, r, now);
      SubmitKeys(t, r, now);
      forall k | k in u.items ensures ItemOk(u.log, k, u.items[k]) {
        if k != r.id { assert ItemOk(t.log, k, t.items[k]); }
      }
    }
  }

  /** Rewriting one row and logging why keeps the ledger consistent. */
  lemma RewriteOk(t: Table, id: string, item: Item, e: Entry)
    requires LedgerOk(t) && id in t.items && item.key == t.items[id].key
    requires e.id == id && LegalStep(Replay(t.log, id), e) && ItemOk(t.log + [e], id, item)
    ensures LedgerOk(t.(items := t.items[id := item], log := t.log + [e]))
  {
    hide Replay, LegalLog, LegalStep, Forest;
    LegalAppend(t.log, e);
    OtherReplays(t.log, e);
    var u := t.(items := t.items[id := item], log := t.log + [e]);
    forall k | k in u.items ensures ItemOk(u.log, k, u.items[k]) {
      if k != id { assert ItemOk(t.log, k, t.items[k]); }
    }
  }

  lemma TransitionOk(t: Table, id: string, to: WorkState, owner: Option<string>, leaseSeconds: Option<int>,
                     outcome: Option<string>, error: Option<string>, now: int)
    requires LedgerOk(t) && Transition(t, id, to, owner, leaseSeconds, outcome, error, now).Ok?
    ensures LedgerOk(Transition(t, id, to, owner, leaseSeconds, outcome, error, now).value)
  {
    var item := t.items[id];
    assert ItemOk(t.log, id, item);
    ReplayAppend(t.log, Moved(id, to), id);
    RewriteOk(t, id, Moved'(item, to, owner, leaseSeconds, outcome, error, now), Moved(id, to));
  }

  lemma RenewOk(t: Table, id: string, epoch: string, leaseSeconds: int, now: int)
    requires LedgerOk(t) && RenewLease(t, id, epoch, leaseSeconds, now).Ok?
    ensures LedgerOk(RenewLease(t, id, epoch, leaseSeconds, now).value)
  {
    assert ItemOk(t.log, id, t.items[id]);
  }

  lemma RecoverOneOk(t: Table, id: string, now: int)
    requires LedgerOk(t) && id in t.items && Active(t.items[id].state)
    ensures LedgerOk(RecoverOne(t, id, now))
  {
    var item := t.items[id];
    assert ItemOk(t.log, id, item);
    ReplayAppend(t.log, Recovered(id), id);
    RewriteOk(t, id, item.(state := Uncertain, lease := None, updatedAt := now, error := RESTARTED), Recovered(id));
  }

  /** What recovery does to every row, and that it keeps the ledger consistent. */
  lemma {:induction false} RecoverAllOk(t: Table, ids: seq<string>, now: int)
    requires LedgerOk(t) && NoRepeats(ids) && forall id :: id in ids ==> id in t.items && Active(t.items[id].state)
    ensures var u := RecoverAll(t, ids, now);
      && LedgerOk(u) && u.items.Keys == t.items.Keys && u.order == t.order && u.edges == t.edges && u.drain == t.drain
      && (forall id :: id in t.items ==>
            u.items[id] == if id in ids then t.items[id].(state := Uncertain, lease := None, updatedAt := now,
              error := RESTARTED)
                           else t.items[id])
      && (forall id :: id in t.items ==>
            Replay(u.log, id).Trail? && Replay(t.log, id).Trail?
              && Replay(u.log, id).requeues == Replay(t.log, id).requeues)
    decreases |ids|
  {
    hide LedgerOk, Replay, Active;
    forall k | k in t.items ensures Replay(t.log, k).Trail? {
      HasTrail(t, k);
    }
    if ids != [] {
      var id := ids[0];
      assert id in ids;
      RecoverOneOk(t, id, now);
      var v := RecoverOne(t, id, now);
      forall k | k in ids[1..] ensures k in v.items && Active(v.items[k].state) {
        assert k != id;
        assert k in ids;
      }
      RecoverAllOk(v, ids[1..], now);
      forall k | k in t.items ensures Replay(v.log, k).requeues == Replay(t.log, k).requeues {
        KeepsRequeues(t, id, now, k);
      }
    }
  }

  lemma HasTrail(t: Table, id: string)
    requires LedgerOk(t) && id in t.items
    ensures Replay(t.log, id).Trail?
  {
    assert ItemOk(t.log, id, t.items[id]);
  }

  lemma KeepsRequeues(t: Table, id: string, now: int, k: string)
    requires LedgerOk(t) && id in t.items && k in t.items && Replay(t.log, k).Trail?
    ensures var v := RecoverOne(t, id, now);
      Replay(v.log, k).Trail? && Replay(v.log, k).requeues == Replay(t.log, k).requeues
  {
    ReplayAppend(t.log, Recovered(id), k);
    HasTrail(t, k);
  }

  lemma {:induction false} OrphanNoRepeats(t: Table, ids: seq<string>, epoch: string)
    requires NoRepeats(ids)
    ensures NoRepeats(OrphanIds(t, ids, epoch))
  {
    if ids != [] {
      OrphanNoRepeats(t, ids[1..], epoch);
      var r := OrphanIds(t, ids[1..], epoch);
      assert forall x :: x in r ==> x in ids[1..] && x != ids[0];
    }
  }

  /** Recovery turns exactly the active work of other owners uncertain; nothing returns to the queue. */
  lemma RecoverOk(t: Table, epoch: string, now: int)
    requires LedgerOk(t)
    ensures var u := Recover(t, epoch, now);
      && LedgerOk(u) && u.items.Keys == t.items.Keys && u.drain == t.drain
      && (forall id :: id in t.items ==>
            && u.items[id].attempt == t.items[id].attempt
            && u.items[id].state == (if Orphaned(t, id, epoch) then Uncertain else t.items[id].state)
            && Replay(u.log, id).Trail? && Replay(t.log, id).Trail?
            && Replay(u.log, id).requeues == Replay(t.log, id).requeues)
  {
    OrphanNoRepeats(t, t.order, epoch);
    RecoverAllOk(t, OrphanIds(t, t.order, epoch), now);
  }

  /** Recovery rewrites the rows of orphaned work as given and leaves every other row as it was. */
  lemma {:induction false} RecoverRows(t: Table, epoch: string, now: int, id: string)
    requires LedgerOk(t) && id in t.items
    ensures var u := Recover(t, epoch, now);
      id in u.items
      && u.items[id] ==
         if Orphaned(t, id, epoch)
         then t.items[id].(state := Uncertain, lease := None, updatedAt := now, error := RESTARTED)
         else t.items[id]
  {
    OrphanNoRepeats(t, t.order, epoch);
    RecoverAllOk(t, OrphanIds(t, t.order, epoch), now);
  }

  /** Submitting the same key again changes nothing. */
  lemma SubmitIsIdempotent(t: Table, r: Request, now: int, again: Request, later: int)
    requires Submit(t, r, now).Ok? && again.key == r.key && !Blank(again.engine)
    ensures Submit(Submit(t, r, now).value.0, again, later) == Ok((Submit(t, r, now).value.0, false))
  {
    var (u, created) := Submit(t, r, now).value;
    if created {
      assert r.id in u.items && u.items[r.id].key == r.key;
    }
  }
}
