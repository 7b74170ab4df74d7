/** What a row of the ledger holds, said without the code that writes it: every field is the one last supplied for
    it by an accepted call (control_plane.py:330-384, 495-606). */
module LedgerValues {
  import opened OrderedDict
  import opened Sequences
  import opened WorkLedger
  import opened LedgerStore

  /** The call is accepted and writes the row of `id`. */
  predicate Lands(t: Table, op: Op, id: string) {
    match op
    case OpSubmit(r, _) =>
      && r.id == id && id !in t.items && !Blank(r.engine) && !Blank(r.key) && !KeyTaken(t, r.key)
      && (r.parent == "" || r.parent in t.items)
    case OpTransition(k, to, owner, _, _, _, _) =>
      && k == id && id in t.items && (to == t.items[id].state || Allowed(t.items[id].state, to))
      && !(t.items[id].state == Uncertain && to == Running && owner == None)
    case OpRenew(k, holder, _, _) =>
      k == id && id in t.items && Active(t.items[id].state) && t.items[id].epoch == holder
    case OpRecover(epoch, _) => id in t.items && Active(t.items[id].state) && t.items[id].epoch != epoch
    case OpDrain(_, _, _) => false
  }

  /** The value most recently supplied for `id`, by a reading of calls that says which values they supply. */
  function Latest<T>(ops: seq<Op>, id: string, supplied: (Table, Op) -> Option<T>): Option<T> {
    if ops == [] then None
    else
      var n := |ops| - 1;
      var t := LedgerStore.Run(ops[..n]);
      if Lands(t, ops[n], id) && supplied(t, ops[n]).Some? then supplied(t, ops[n]) else Latest(ops[..n], id, supplied)
  }

  ghost predicate Supplies<T(!new)>(ops: seq<Op>, n: nat, id: string, supplied: (Table, Op) -> Option<T>, v: Option<T>)
    requires n < |ops|
  {
    Lands(LedgerStore.Run(ops[..n]), ops[n], id) && supplied(LedgerStore.Run(ops[..n]), ops[n]) == v
  }

  /** No accepted call after the `n`-th supplies a value. */
  ghost predicate SilentAfter<T(!new)>(ops: seq<Op>, n: int, id: string, supplied: (Table, Op) -> Option<T>) {
    forall m :: 0 <= m < |ops| && n < m && Lands(LedgerStore.Run(ops[..m]), ops[m], id) ==>
      Supplies(ops, m, id, supplied, None)
  }

  /** The fold is the last of the accepted calls that supply a value. */
  lemma {:induction false} LatestIsLast<T(!new)>(ops: seq<Op>, id: string, supplied: (Table, Op) -> Option<T>)
    ensures match Latest(ops, id, supplied)
      case Some(v) =>
        exists n :: 0 <= n < |ops| && Supplies(ops, n, id, supplied, Some(v)) && SilentAfter(ops, n, id, supplied)
      case None => SilentAfter(ops, -1, id, supplied)
    decreases |ops|
  {
    hide LedgerStore.Run, Lands;
    if ops != [] {
      var n := |ops| - 1;
      var front := ops[..n];
      LatestIsLast(front, id, supplied);
      if Lands(LedgerStore.Run(front), ops[n], id) && supplied(LedgerStore.Run(front), ops[n]).Some? {
        var v := supplied(LedgerStore.Run(front), ops[n]).value;
        assert Latest(ops, id, supplied) == Some(v);
        assert Supplies(ops, n, id, supplied, Some(v));
        assert SilentAfter(ops, n, id, supplied);
      } else {
        match Latest(front, id, supplied)
        case None => SilenceGrows(ops, -1, id, supplied);
        case Some(v) =>
          var k :| 0 <= k < |front| && Supplies(front, k, id, supplied, Some(v)) && SilentAfter(front, k, id, supplied);
          SilenceGrows(ops, k, id, supplied);
          assert ops[..k] == front[..k];
          assert Supplies(ops, k, id, supplied, Some(v));
      }
    }
  }

  lemma {:induction false} SilenceGrows<T(!new)>(ops: seq<Op>, k: int, id: string, supplied: (Table, Op) -> Option<T>)
    requires ops != [] && SilentAfter(ops[..|ops| - 1], k, id, supplied)
    requires var n := |ops| - 1;
      !(Lands(LedgerStore.Run(ops[..n]), ops[n], id) && supplied(LedgerStore.Run(ops[..n]), ops[n]).Some?)
    ensures SilentAfter(ops, k, id, supplied)
  {
    hide LedgerStore.Run, Lands;
    var front := ops[..|ops| - 1];
    forall m | 0 <= m < |ops| && k < m && Lands(LedgerStore.Run(ops[..m]), ops[m], id)
      ensures Supplies(ops, m, id, supplied, None) {
      if m < |front| {
        assert ops[..m] == front[..m];
        assert Supplies(front, m, id, supplied, None);
      }
    }
  }

  // ---- what a call supplies ----

  const OutcomeIn := (t: Table, op: Op) =>
    match op case OpSubmit(_, _) => Some("{}") case OpTransition(_, _, _, _, outcome, _, _) => outcome case _ => None

  const ErrorIn := (t: Table, op: Op) =>
    match op
    case OpSubmit(_, _) => Some("")
    case OpTransition(_, _, _, _, _, error, _) => error
    case OpRecover(_, _) => Some("worker restarted before completion was confirmed")
    case _ => None

  const OwnerIn := (t: Table, op: Op) =>
    match op case OpSubmit(_, _) => Some("") case OpTransition(_, _, owner, _, _, _, _) => owner case _ => None

  /** The end of a lease, at least a second ahead; whatever makes an item inactive takes its lease away. */
  const LeaseIn := (t: Table, op: Op) =>
    match op
    case OpSubmit(_, _) => Some(None)
    case OpTransition(_, to, _, seconds, _, _, now) =>
      if to != Dispatching && to != Running then Some(None)
      else if seconds.Some? then Some(Some(now + (if seconds.value < 1 then 1 else seconds.value)))
      else None
    case OpRenew(_, _, seconds, now) => Some(Some(now + (if seconds < 1 then 1 else seconds)))
    case OpRecover(_, _) => Some(None)
    case OpDrain(_, _, _) => None

  const StateIn := (t: Table, op: Op) =>
    match op
    case OpSubmit(_, _) => Some(Queued)
    case OpTransition(_, to, _, _, _, _, _) => Some(to)
    case OpRecover(_, _) => Some(Uncertain)
    case _ => None

  const TouchedIn := (t: Table, op: Op) =>
    match op
    case OpSubmit(_, now) => Some(now)
    case OpTransition(_, _, _, _, _, _, now) => Some(now)
    case OpRenew(_, _, _, now) => Some(now)
    case OpRecover(_, now) => Some(now)
    case OpDrain(_, _, _) => None

  /** When the item last entered `dispatching` from another state. */
  const DispatchIn := (t: Table, op: Op) =>
    match op
    case OpSubmit(_, _) => Some(None)
    case OpTransition(id, to, _, _, _, _, now) =>
      if to == Dispatching && id in t.items && t.items[id].state != Dispatching then Some(Some(now)) else None
    case _ => None

  const FinishIn := (t: Table, op: Op) =>
    match op
    case OpSubmit(_, _) => Some(None)
    case OpTransition(_, to, _, _, _, _, now) => if to in {Completed, Failed, Cancelled} then Some(Some(now)) else None
    case _ => None

  const RequestIn := (t: Table, op: Op) =>
    match op case OpSubmit(r, now) => Some((r, now)) case _ => None

  // ---- one call ----

  /** The row after an accepted call, in terms of what the call supplies and what the row held. */
  predicate Writes(t: Table, op: Op, was: Option<Item>, row: Item) {
    && (match OutcomeIn(t, op) case Some(v) => row.outcome == v
        case None => was.Some? && row.outcome == was.value.outcome)
    && (match ErrorIn(t, op) case Some(v) => row.error == v case None => was.Some? && row.error == was.value.error)
    && (match OwnerIn(t, op) case Some(v) => row.epoch == v case None => was.Some? && row.epoch == was.value.epoch)
    && (match LeaseIn(t, op) case Some(v) => row.lease == v case None => was.Some? && row.lease == was.value.lease)
    && (match StateIn(t, op) case Some(v) => row.state == v case None => was.Some? && row.state == was.value.state)
    && TouchedIn(t, op) == Some(row.updatedAt)
    && (match DispatchIn(t, op) case Some(v) => row.dispatchedAt == v
        case None => was.Some? && row.dispatchedAt == was.value.dispatchedAt)
    && (match FinishIn(t, op) case Some(v) => row.completedAt == v
        case None => was.Some? && row.completedAt == was.value.completedAt)
    && (match RequestIn(t, op) case Some((r, now)) => Describes(row, r, now)
        case None => was.Some? && SameRequest(row, was.value))
  }

  /** The row carries what was submitted. */
  predicate Describes(row: Item, r: Request, now: int) {
    && row.key == r.key && row.engine == r.engine && row.session == r.session && row.payload == r.payload
    && row.kind == (if r.kind == "" then "turn" else r.kind) && row.createdAt == now
  }

  predicate SameRequest(a: Item, b: Item) {
    && a.key == b.key && a.engine == b.engine && a.session == b.session && a.kind == b.kind && a.payload == b.payload
    && a.createdAt == b.createdAt
  }

  function Row(t: Table, id: string): Option<Item> {
    if id in t.items then Some(t.items[id]) else None
  }

  /** One call: an accepted one writes the row of its item, and every other row is as it was. */
  predicate Effect(t: Table, op: Op, u: Table, id: string) {
    if Lands(t, op, id) then id in u.items && Writes(t, op, Row(t, id), u.items[id]) else Row(u, id) == Row(t, id)
  }

  lemma {:induction false} SubmitWrites(t: Table, r: Request, now: int, id: string)
    ensures Effect(t, OpSubmit(r, now), LedgerStore.Apply(t, OpSubmit(r, now)), id)
  {
    hide Blank, KeyTaken, Transition, RenewLease, Recover;
  }

  lemma {:induction false} TransitionWrites(t: Table, op: Op, id: string)
    requires op.OpTransition?
    ensures Effect(t, op, LedgerStore.Apply(t, op), id)
  {
    hide Submit, RenewLease, Recover, Allowed;
  }

  lemma {:induction false} RecoverWrites(t: Table, epoch: string, now: int, id: string)
    requires LedgerOk(t)
    ensures Effect(t, OpRecover(epoch, now), LedgerStore.Apply(t, OpRecover(epoch, now)), id)
  {
    hide LedgerOk, Submit, Transition, RenewLease, Recover;
    RecoverOk(t, epoch, now);
    if id in t.items { RecoverRows(t, epoch, now, id); }
  }

  lemma {:induction false} OtherWrites(t: Table, op: Op, id: string)
    requires op.OpRenew? || op.OpDrain?
    ensures Effect(t, op, LedgerStore.Apply(t, op), id)
  {
    hide Submit, Transition, Recover, KeyTaken, Blank;
  }

  lemma {:induction false} CallWrites(t: Table, op: Op, id: string)
    requires LedgerOk(t)
    ensures Effect(t, op, LedgerStore.Apply(t, op), id)
  {
    hide *;
    match op
    case OpSubmit(r, now) => SubmitWrites(t, r, now, id);
    case OpTransition(_, _, _, _, _, _, _) => TransitionWrites(t, op, id);
    case OpRecover(epoch, now) => RecoverWrites(t, epoch, now, id);
    case _ => OtherWrites(t, op, id);
  }

  // ---- every run ----

  ghost predicate Holds(ops: seq<Op>, id: string, row: Item) {
    && Latest(ops, id, OutcomeIn) == Some(row.outcome)
    && Latest(ops, id, ErrorIn) == Some(row.error)
    && Latest(ops, id, OwnerIn) == Some(row.epoch)
    && Latest(ops, id, LeaseIn) == Some(row.lease)
    && Latest(ops, id, StateIn) == Some(row.state)
    && Latest(ops, id, TouchedIn) == Some(row.updatedAt)
    && Latest(ops, id, DispatchIn) == Some(row.dispatchedAt)
    && Latest(ops, id, FinishIn) == Some(row.completedAt)
    && (var asked: Option<(Request, int)> := Latest(ops, id, RequestIn);
        asked.Some? && Describes(row, asked.value.0, asked.value.1))
  }

  lemma {:induction false} LatestStep<T>(ops: seq<Op>, op: Op, id: string, supplied: (Table, Op) -> Option<T>)
    ensures var t := LedgerStore.Run(ops);
      Latest(ops + [op], id, supplied)
      == if Lands(t, op, id) && supplied(t, op).Some? then supplied(t, op) else Latest(ops, id, supplied)
  {
    hide LedgerStore.Run, Lands;
    assert (ops + [op])[..|ops|] == ops;
  }

  lemma {:induction false} LatestSteps(ops: seq<Op>, op: Op, id: string, row: Item, next: Item)
    requires Lands(LedgerStore.Run(ops), op, id)
    requires Writes(LedgerStore.Run(ops), op, if id in LedgerStore.Run(ops).items then Some(row) else None, next)
    requires id in LedgerStore.Run(ops).items ==> Holds(ops, id, row)
    ensures Holds(ops + [op], id, next)
  {
    hide LedgerStore.Run, Lands, Latest;
    LatestStep(ops, op, id, OutcomeIn);
    LatestStep(ops, op, id, ErrorIn);
    LatestStep(ops, op, id, OwnerIn);
    LatestStep(ops, op, id, LeaseIn);
    LatestStep(ops, op, id, StateIn);
    LatestStep(ops, op, id, TouchedIn);
    LatestStep(ops, op, id, DispatchIn);
    LatestStep(ops, op, id, FinishIn);
    LatestStep(ops, op, id, RequestIn);
  }

  lemma {:induction false} LatestSkips(ops: seq<Op>, op: Op, id: string, row: Item)
    requires !Lands(LedgerStore.Run(ops), op, id) && Holds(ops, id, row)
    ensures Holds(ops + [op], id, row)
  {
    hide LedgerStore.Run, Lands, Latest;
    LatestStep(ops, op, id, OutcomeIn);
    LatestStep(ops, op, id, ErrorIn);
    LatestStep(ops, op, id, OwnerIn);
    LatestStep(ops, op, id, LeaseIn);
    LatestStep(ops, op, id, StateIn);
    LatestStep(ops, op, id, TouchedIn);
    LatestStep(ops, op, id, DispatchIn);
    LatestStep(ops, op, id, FinishIn);
    LatestStep(ops, op, id, RequestIn);
  }

  /** Over every sequence of calls, a row holds what accepted calls last supplied for it, or its submission. */
  lemma {:induction false} RowIsLastSupplied(ops: seq<Op>, id: string)
    requires id in LedgerStore.Run(ops).items
    ensures Holds(ops, id, LedgerStore.Run(ops).items[id])
    decreases |ops|
  {
    hide LedgerOk, LedgerStore.Apply, Lands, Holds, Writes;
    if ops == [] {
      assert false;
    } else {
      var n := |ops| - 1;
      var front, op := ops[..n], ops[n];
      var t, u := LedgerStore.Run(front), LedgerStore.Run(ops);
      assert front + [op] == ops;
      ReachableIsOk(front);
      CallWrites(t, op, id);
      assert u == LedgerStore.Apply(t, op);
      if id in t.items { RowIsLastSupplied(front, id); }
      if Lands(t, op, id) {
        LatestSteps(front, op, id, if id in t.items then t.items[id] else u.items[id], u.items[id]);
      } else {
        LatestSkips(front, op, id, u.items[id]);
      }
    }
  }

  // ---- the rest of the table ----

  /** The items in the order their submissions were accepted. */
  function OrderOf(ops: seq<Op>): seq<string> {
    if ops == [] then []
    else
      var n := |ops| - 1;
      OrderOf(ops[..n])
      + if ops[n].OpSubmit? && Lands(LedgerStore.Run(ops[..n]), ops[n], ops[n].r.id) then [ops[n].r.id] else []
  }

  /** An edge for each accepted submission with a parent. */
  function EdgesOf(ops: seq<Op>): seq<Edge> {
    if ops == [] then []
    else
      var n := |ops| - 1;
      EdgesOf(ops[..n])
      + if ops[n].OpSubmit? && ops[n].r.parent != "" && Lands(LedgerStore.Run(ops[..n]), ops[n], ops[n].r.id) then
          var r := ops[n].r;
          [Edge(r.parent, r.id, if r.relation == "" then "spawned" else r.relation, ops[n].now)]
        else []
  }

  /** What the last `set_drain` asked for, its reason cut to 500 characters. */
  function DrainOf(ops: seq<Op>): Drain {
    if ops == [] then Drain(false, "", None)
    else
      match ops[|ops| - 1]
      case OpDrain(enabled, reason, now) =>
        Drain(enabled, if |reason| > 500 then reason[..500] else reason, if enabled then Some(now) else None)
      case _ => DrainOf(ops[..|ops| - 1])
  }

  lemma {:induction false} CallKeepsRest(t: Table, op: Op)
    requires LedgerOk(t)
    ensures var u := LedgerStore.Apply(t, op);
      if op.OpSubmit? && Lands(t, op, op.r.id) then u.order == t.order + [op.r.id] && u.drain == t.drain
      else u.order == t.order && u.edges == t.edges && (!op.OpDrain? ==> u.drain == t.drain)
  {
    hide LedgerOk, Blank, KeyTaken, Recover;
    if op.OpRecover? { RecoverRest(t, op.epoch, op.now); }
  }

  lemma {:induction false} RecoverRest(t: Table, epoch: string, now: int)
    requires LedgerOk(t)
    ensures var u := Recover(t, epoch, now); u.order == t.order && u.edges == t.edges && u.drain == t.drain
  {
    hide LedgerOk, OrphanIds;
    ActiveOrphans(t, epoch);
    OrphanNoRepeats(t, t.order, epoch);
    RecoverAllOk(t, OrphanIds(t, t.order, epoch), now);
  }

  lemma {:induction false} ActiveOrphans(t: Table, epoch: string)
    requires LedgerOk(t)
    ensures NoRepeats(t.order)
    ensures forall id :: id in OrphanIds(t, t.order, epoch) ==> id in t.items && Active(t.items[id].state)
  {
  }

  /** Over every sequence of calls the order of rows, the edges and the drain record are those of the calls made. */
  lemma {:induction false} TableIsWhatWasCalled(ops: seq<Op>)
    ensures var t := LedgerStore.Run(ops);
      t.order == OrderOf(ops) && t.edges == EdgesOf(ops) && t.drain == DrainOf(ops)
    decreases |ops|
  {
    hide LedgerOk, Blank, KeyTaken, Recover, Transition, RenewLease, Lands;
    if ops != [] {
      var n := |ops| - 1;
      var t := LedgerStore.Run(ops[..n]);
      TableIsWhatWasCalled(ops[..n]);
      ReachableIsOk(ops[..n]);
      CallKeepsRest(t, ops[n]);
      if ops[n].OpSubmit? && Lands(t, ops[n], ops[n].r.id) { SubmitEdges(t, ops[n].r, ops[n].now); }
      hide LedgerStore.Apply;
    }
  }

  lemma {:induction false} SubmitEdges(t: Table, r: Request, now: int)
    requires Lands(t, OpSubmit(r, now), r.id)
    ensures LedgerStore.Apply(t, OpSubmit(r, now)).edges
      == t.edges + if r.parent == "" then [] else
           [Edge(r.parent, r.id, if r.relation == "" then "spawned" else r.relation, now)]
  {
    hide Blank, KeyTaken;
  }
}
