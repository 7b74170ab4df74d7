/** `retire_stale_uncertain` (worker_engines.py:204-242): stale uncertain work is listed first and cancelled later,
    by a transition that does not ask whether the row is still uncertain. The worker's reconcile call
    (ccc_worker.py:185-190) and its periodic sweep (ccc_worker.py:334-356) run it on different threads. */
module Retirement {
  import opened OrderedDict
  import opened WorkLedger
  import opened EngineHost

  /** A listed item that exists ends cancelled exactly when it had neither completed nor failed before. */
  lemma {:induction false} RetireCancelsIff(h: Host, i: nat, now: int)
    requires At(h, i) && h.threads[i].Retiring? && h.threads[i].id in h.table.items
    ensures var id := h.threads[i].id;
      StateOf(Step(h, ARetire(i, now)).table, id) == Some(Cancelled)
      <==> StateOf(h.table, id) !in {Some(Completed), Some(Failed)}
  {
    hide Submit, Move, Recover, RenewLease, Moved';
    var id := h.threads[i].id;
    Cancels(h.table, id, now);
  }

  lemma {:induction false} Cancels(t: Table, id: string, now: int)
    requires id in t.items
    ensures match Transition(t, id, Cancelled, None, None, None, None, now)
      case Err(_) => t.items[id].state.Completed? || t.items[id].state.Failed?
      case Ok(u) => StateOf(u, id) == Some(Cancelled) && !t.items[id].state.Completed? && !t.items[id].state.Failed?
  {
  }

  /** The comment's promise, that only work which is still uncertain is closed out, holds for a step exactly when
      the row, if it can be cancelled at all, is uncertain or cancelled when the step runs. */
  lemma {:induction false} RetireClosesOnlyUncertainIff(h: Host, i: nat, now: int)
    requires At(h, i) && h.threads[i].Retiring? && h.threads[i].id in h.table.items
    ensures var id := h.threads[i].id;
      var was, after := StateOf(h.table, id), StateOf(Step(h, ARetire(i, now)).table, id);
      (after != was ==> was == Some(Uncertain))
      <==> was in {Some(Uncertain), Some(Cancelled), Some(Completed), Some(Failed)}
  {
    RetireCancelsIff(h, i, now);
  }

  /** The item runs and is tracked, and the retirement that thread `n` is about to make cancels it. */
  ghost predicate CancelsLive(live: Host, n: nat, id: string, now: int) {
    && |live.threads| == n + 3 && live.threads[n] == Retiring(id) && live.threads[n + 2] == Tracking(id)
    && StateOf(live.table, id) == Some(Running)
    && StateOf(Step(live, ARetire(n, now)).table, id) == Some(Cancelled)
  }

  /** Listed as stale by one thread, reclaimed as live by another, then retired by the first. */
  lemma {:induction false} RaceCancelsLiveWork(h: Host, id: string, listed: int, now: int)
    requires Stale(h.table, id, listed)
    ensures var n := |h.threads|;
      CancelsLive(Step(Step(Step(h, AListStale(id, listed)), AReconcile(id)), AReclaim(n + 1, now)), n, id, now)
  {
    var n := |h.threads|;
    var s1 := Step(h, AListStale(id, listed));
    assert s1 == Spawn(h, Retiring(id));
    var s2 := Step(s1, AReconcile(id));
    assert s2 == Spawn(s1, Reclaiming(id));
    assert s2.threads[n] == Retiring(id) && s2.threads[n + 1] == Reclaiming(id);
    hide Moved', Spawn;
    ReclaimRuns(s2, n + 1, id, now);
    var live := Step(s2, AReclaim(n + 1, now));
    RetireCancelsIff(live, n, now);
  }

  lemma {:induction false} ReclaimRuns(h: Host, i: nat, id: string, now: int)
    requires At(h, i) && h.threads[i] == Reclaiming(id) && StateOf(h.table, id) == Some(Uncertain)
    ensures var g := Step(h, AReclaim(i, now));
      && StateOf(g.table, id) == Some(Running) && g.threads == h.threads[i := Finished] + [Tracking(id)]
  {
  }

  // ---- a run from the start ----

  /** A request named `w` is sent to its engine and runs there when the worker restarts. */
  const ORPHANED := [ASubmit(REQUEST, true, 0), AReadDrain(0), AAcquire(0), AReadFresh(0), AReadDrain(0), AClaim(0, 0),
                     ASend(0, Async), ASettle(0, 0), ARestart("b", 1)]

  const REQUEST := Request("w", "k", "codex", "s", "turn",
    "{\"operation\": \"resume\", \"args\": {\"session_id\": \"s\"}}", "", "")

  lemma {:induction false} OrphanIsStale()
    ensures Stale(Runs(Boot("a"), ORPHANED).table, "w", 901)
    ensures Runs(Boot("a"), ORPHANED).threads == []
  {
    hide Submit, Move, Recover;
    var h := Step(Boot("a"), ORPHANED[0]);
    SubmitOne(Boot("a"));
    var claimed := h.(threads := [SawOpen("w", None)], lock := Some(0));
    assert Step(h, ORPHANED[1]) == h.(threads := [Wants("w")]);
    assert Step(h.(threads := [Wants("w")]), ORPHANED[2]) == h.(threads := [Entered("w", None)], lock := Some(0));
    assert Step(h.(threads := [Entered("w", None)], lock := Some(0)), ORPHANED[3])
      == h.(threads := [SawQueued("w", None)], lock := Some(0));
    assert Step(h.(threads := [SawQueued("w", None)], lock := Some(0)), ORPHANED[4]) == claimed;
    ClaimAndSend(claimed);
    hide Step;
    RunsFrom(Boot("a"), ORPHANED, 0);
    RunsFrom(h, ORPHANED, 1);
    RunsFrom(h.(threads := [Wants("w")]), ORPHANED, 2);
    RunsFrom(h.(threads := [Entered("w", None)], lock := Some(0)), ORPHANED, 3);
    RunsFrom(h.(threads := [SawQueued("w", None)], lock := Some(0)), ORPHANED, 4);
    assert ORPHANED[0..] == ORPHANED;
  }

  /** From the claim on. */
  lemma {:induction false} ClaimAndSend(h: Host)
    requires h.threads == [SawOpen("w", None)] && StateOf(h.table, "w") == Some(Queued) && h.lock == Some(0)
    requires h.table.order == ["w"] && h.epoch == "a" && "b" !in h.used
    ensures var g := Runs(h, ORPHANED[5..]); Stale(g.table, "w", 901) && g.threads == []
  {
    hide Submit, Move, Recover;
    ClaimOne(h);
    var h6 := Step(h, ORPHANED[5]);
    var h7 := Step(h6, ORPHANED[6]);
    assert h7.threads == [Answered("w", None, Async)] && h7.table == h6.table && h7.epoch == "a" && h7.used == h.used;
    SettleOne(h7);
    var h8 := Step(h7, ORPHANED[7]);
    RestartOne(h8);
    hide Step;
    RunsFrom(h, ORPHANED, 5);
    RunsFrom(h6, ORPHANED, 6);
    RunsFrom(h7, ORPHANED, 7);
    RunsFrom(h8, ORPHANED, 8);
    assert ORPHANED[9..] == [];
  }

  /** The actions one after the other. */
  function Runs(h: Host, actions: seq<Action>): Host
    decreases |actions|
  {
    if actions == [] then h else Runs(Step(h, actions[0]), actions[1..])
  }

  lemma {:induction false} RunsSnoc(h: Host, actions: seq<Action>, a: Action)
    ensures Runs(h, actions + [a]) == Step(Runs(h, actions), a)
    decreases |actions|
  {
    hide Step;
    if actions == [] {
      assert actions + [a] == [a] && [a][1..] == [];
    } else {
      assert (actions + [a])[1..] == actions[1..] + [a];
      RunsSnoc(Step(h, actions[0]), actions[1..], a);
    }
  }

  lemma {:induction false} RunIsRuns(epoch: string, actions: seq<Action>)
    ensures EngineHost.Run(epoch, actions) == Runs(Boot(epoch), actions)
    decreases |actions|
  {
    hide Step;
    if actions != [] {
      RunIsRuns(epoch, actions[..|actions| - 1]);
      RunsSnoc(Boot(epoch), actions[..|actions| - 1], actions[|actions| - 1]);
      assert actions == actions[..|actions| - 1] + [actions[|actions| - 1]];
    }
  }

  lemma {:induction false} RunsAppend(h: Host, a: seq<Action>, b: seq<Action>)
    ensures Runs(h, a + b) == Runs(Runs(h, a), b)
    decreases |a|
  {
    hide Step;
    if a == [] {
      assert a + b == b;
    } else {
      assert (a + b)[1..] == a[1..] + b;
      RunsAppend(Step(h, a[0]), a[1..], b);
    }
  }

  lemma {:induction false} RunsFrom(h: Host, actions: seq<Action>, i: nat)
    requires i < |actions|
    ensures Runs(h, actions[i..]) == Runs(Step(h, actions[i]), actions[i + 1..])
  {
    assert actions[i..][1..] == actions[i + 1..];
  }

  lemma {:induction false} SubmitOne(h: Host)
    requires h == Boot("a")
    ensures var g := Step(h, ASubmit(REQUEST, true, 0));
      && g.threads == [Created("w")] && g.lock == None && g.epoch == "a" && g.used == {"a"} && !g.table.drain.enabled
      && g.table.order == ["w"] && StateOf(g.table, "w") == Some(Queued)
  {
    assert "codex"[0] == 'c' && "k"[0] == 'k';
  }

  lemma {:induction false} ClaimOne(h: Host)
    requires h.threads == [SawOpen("w", None)] && StateOf(h.table, "w") == Some(Queued) && h.lock == Some(0)
    ensures var g := Step(h, AClaim(0, 0));
      && g.threads == [Claimed("w", None)]
      && StateOf(g.table, "w") == Some(Dispatching) && g.table.items["w"].epoch == h.epoch
      && g.table.order == h.table.order && g.epoch == h.epoch && g.used == h.used
  {
  }

  lemma {:induction false} SettleOne(h: Host)
    requires h.threads == [Answered("w", None, Async)] && StateOf(h.table, "w") == Some(Dispatching)
    ensures var g := Step(h, ASettle(0, 0));
      && StateOf(g.table, "w") == Some(Running) && g.table.items["w"].epoch == h.epoch
      && g.table.order == h.table.order && g.used == h.used
  {
  }

  lemma {:induction false} RestartOne(h: Host)
    requires StateOf(h.table, "w") == Some(Running) && h.table.items["w"].epoch == "a" && h.table.order == ["w"]
    requires "b" !in h.used
    ensures var g := Step(h, ARestart("b", 1)); Stale(g.table, "w", 901) && g.threads == []
  {
    assert "a"[0] != "b"[0];
    assert ["w"][1..] == [];
    assert OrphanIds(h.table, ["w"], "b") == ["w"];
  }

  /** At time 901 the orphan is a quarter of an hour old: one thread lists it, another reclaims it. */
  const RACE := [AListStale("w", 901), AReconcile("w"), AReclaim(1, 902)]

  /** In a run from the start: work reclaimed as live, with its tracker running, is cancelled by a retirement that had
      listed it before. */
  lemma {:induction false} RetirementFightsReclaim()
    ensures CancelsLive(EngineHost.Run("a", ORPHANED + RACE), 0, "w", 902)
    ensures StateOf(EngineHost.Run("a", ORPHANED + RACE + [ARetire(0, 902)]).table, "w") == Some(Cancelled)
  {
    hide Step, EngineHost.Run, Boot, Stale;
    var h := Runs(Boot("a"), ORPHANED);
    OrphanIsStale();
    RunIsRuns("a", ORPHANED + RACE);
    RunIsRuns("a", ORPHANED + RACE + [ARetire(0, 902)]);
    RunsAppend(Boot("a"), ORPHANED, RACE);
    RunsSnoc(Boot("a"), ORPHANED + RACE, ARetire(0, 902));
    ThreeRuns(h, RACE[0], RACE[1], RACE[2]);
    RaceCancelsLiveWork(h, "w", 901, 902);
  }

  lemma {:induction false} ThreeRuns(h: Host, a: Action, b: Action, c: Action)
    ensures Runs(h, [a, b, c]) == Step(Step(Step(h, a), b), c)
  {
    hide Step;
    var all := [a, b, c];
    assert all[0..] == all && all[3..] == [];
    RunsFrom(h, all, 0);
    RunsFrom(Step(h, a), all, 1);
    RunsFrom(Step(Step(h, a), b), all, 2);
  }
}
