/** The outbound alert limiter `admit` (alert_hook.py:40-46, 87-106): one alert per incident key, and at most ten
    per hour, decided from a persisted state that forgets what is out of date. */
module AlertHook {
  import opened OrderedDict

  const RATE_MAX := 10
  const RATE_WINDOW: real := 3600.0
  const KEY_KEEP: real := 604800.0

  datatype Outcome = Sent | Duplicate | RateLimited

  /** The JSON document on disk; a missing or unreadable one is the empty state. */
  datatype State = State(keys: map<string, real>, sent: seq<real>, heldBack: nat)

  const EMPTY := State(map[], [], 0)

  function Recent(ts: seq<real>, now: real): seq<real> {
    if ts == [] then []
    else Recent(ts[..|ts| - 1], now) + if now - ts[|ts| - 1] < RATE_WINDOW then [ts[|ts| - 1]] else []
  }

  function Pruned(keys: map<string, real>, now: real): map<string, real> {
    map k | k in keys && now - keys[k] < KEY_KEEP :: keys[k]
  }

  /** The mutation under the file lock: the new state, the outcome and the held-back count to report. */
  function Admit(s: State, key: string, now: real): (State, Outcome, nat) {
    var keys, sent := Pruned(s.keys, now), Recent(s.sent, now);
    if key in keys then (State(keys, sent, s.heldBack), Duplicate, 0)
    else if |sent| >= RATE_MAX then (State(keys[key := now], sent, s.heldBack + 1), RateLimited, 0)
    else (State(keys[key := now], sent + [now], 0), Sent, s.heldBack)
  }

  // ---- runs ----

  datatype Call = Call(key: string, now: real)
  datatype Entry = Entry(key: string, now: real, outcome: Outcome, held: nat)

  function Run(calls: seq<Call>): (State, seq<Entry>) {
    if calls == [] then (EMPTY, [])
    else
      var (s, h) := Run(calls[..|calls| - 1]);
      var c := calls[|calls| - 1];
      var (s', outcome, held) := Admit(s, c.key, c.now);
      (s', h + [Entry(c.key, c.now, outcome, held)])
  }

  ghost predicate ClockAdvances(calls: seq<Call>) {
    forall i, j :: 0 <= i <= j < |calls| ==> calls[i].now <= calls[j].now
  }

  // ---- the whole history, with nothing forgotten ----

  /** When the key was last handled, that is sent or held back. */
  function LastHandled(h: seq<Entry>, key: string): Option<real> {
    if h == [] then None
    else
      var e := h[|h| - 1];
      if e.key == key && e.outcome != Duplicate then Some(e.now) else LastHandled(h[..|h| - 1], key)
  }

  function SentTimes(h: seq<Entry>): seq<real> {
    if h == [] then []
    else SentTimes(h[..|h| - 1]) + if h[|h| - 1].outcome == Sent then [h[|h| - 1].now] else []
  }

  /** How many alerts were held back since the last one that went out. */
  function HeldSince(h: seq<Entry>): nat {
    if h == [] then 0
    else
      match h[|h| - 1].outcome
      case Sent => 0
      case Duplicate => HeldSince(h[..|h| - 1])
      case RateLimited => HeldSince(h[..|h| - 1]) + 1
  }

  predicate HandledWithin(h: seq<Entry>, key: string, now: real) {
    LastHandled(h, key).Some? && now - LastHandled(h, key).value < KEY_KEEP
  }

  /** What the limiter should decide, from the full history. */
  function Decision(h: seq<Entry>, key: string, now: real): (Outcome, nat) {
    if HandledWithin(h, key, now) then (Duplicate, 0)
    else if |Recent(SentTimes(h), now)| >= RATE_MAX then (RateLimited, 0)
    else (Sent, HeldSince(h))
  }

  // ---- clock readings ----

  /** What expired at one reading is expired at every later one. Every clock that never steps back is steady. */
  ghost predicate Steady(rs: seq<real>, window: real) {
    forall i, k, j :: 0 <= i < k < j < |rs| && rs[k] - rs[i] >= window ==> rs[j] - rs[i] >= window
  }

  function Times(calls: seq<Call>): (ts: seq<real>)
    ensures |ts| == |calls| && forall i :: 0 <= i < |calls| ==> ts[i] == calls[i].now
  {
    if calls == [] then [] else Times(calls[..|calls| - 1]) + [calls[|calls| - 1].now]
  }

  /** The calls read the clock `rs` in order: call `i` takes reading `at[i]`. A reading may serve several calls, or
      none. */
  ghost predicate Reads(calls: seq<Call>, rs: seq<real>, at: seq<nat>) {
    && |at| == |calls|
    && (forall i :: 0 <= i < |at| ==> at[i] < |rs| && calls[i].now == rs[at[i]])
    && (forall i, j :: 0 <= i <= j < |at| ==> at[i] <= at[j])
  }

  lemma {:induction false} AdvancingIsSteady(calls: seq<Call>, window: real)
    requires ClockAdvances(calls)
    ensures Steady(Times(calls), window)
  {
  }

  lemma {:induction false} ReadsSteady(calls: seq<Call>, rs: seq<real>, at: seq<nat>, window: real)
    requires Reads(calls, rs, at) && Steady(rs, window) && window > 0.0
    ensures Steady(Times(calls), window)
  {
    var ts := Times(calls);
    forall i, k, j | 0 <= i < k < j < |ts| && ts[k] - ts[i] >= window ensures ts[j] - ts[i] >= window {
      assert at[i] <= at[k] <= at[j];
      assert at[i] != at[k];
    }
  }

  lemma {:induction false} SteadyPrefix(calls: seq<Call>, n: nat, window: real)
    requires n <= |calls| && Steady(Times(calls), window)
    ensures Steady(Times(calls[..n]), window)
  {
    hide Times;
    var ts, all := Times(calls[..n]), Times(calls);
    forall i, k, j | 0 <= i < k < j < |ts| && ts[k] - ts[i] >= window ensures ts[j] - ts[i] >= window {
      assert calls[..n][i] == calls[i] && calls[..n][k] == calls[k] && calls[..n][j] == calls[j];
      SteadyAt(all, window, i, k, j);
    }
  }

  lemma {:induction false} SteadyAt(rs: seq<real>, window: real, i: nat, k: nat, j: nat)
    requires Steady(rs, window) && i < k < j < |rs|
    ensures rs[k] - rs[i] >= window ==> rs[j] - rs[i] >= window
  {
  }

  // ---- the persisted state against the full history ----

  ghost predicate SentTracks(s: State, h: seq<Entry>, last: real) {
    s.sent == Recent(SentTimes(h), last)
  }

  ghost predicate KeysTrack(s: State, h: seq<Entry>, last: real) {
    && (forall k :: k in s.keys <==> HandledWithin(h, k, last))
    && (forall k :: k in s.keys ==> s.keys[k] == LastHandled(h, k).value)
  }

  /** What has not expired now had not expired at the last call. */
  ghost predicate Settled(h: seq<Entry>, last: real, now: real, window: real) {
    forall i :: 0 <= i < |h| && now - h[i].now < window ==> last - h[i].now < window
  }

  lemma {:induction false} RecentAgain(ts: seq<real>, last: real, now: real)
    requires forall t :: t in ts && now - t < RATE_WINDOW ==> last - t < RATE_WINDOW
    ensures Recent(Recent(ts, last), now) == Recent(ts, now)
  {
    if ts != [] {
      var before, t := ts[..|ts| - 1], ts[|ts| - 1];
      assert t in ts;
      forall x | x in before && now - x < RATE_WINDOW ensures last - x < RATE_WINDOW {
        assert x in ts;
      }
      RecentAgain(before, last, now);
      if last - t < RATE_WINDOW {
        RecentAppend(Recent(before, last), t, now);
      } else {
        assert Recent(before, last) + [] == Recent(before, last) && Recent(before, now) + [] == Recent(before, now);
      }
    }
  }

  lemma {:induction false} RecentAppend(ts: seq<real>, t: real, now: real)
    ensures Recent(ts + [t], now) == Recent(ts, now) + if now - t < RATE_WINDOW then [t] else []
  {
    assert (ts + [t])[..|ts|] == ts;
  }

  lemma {:induction false} SentInHistory(h: seq<Entry>, t: real)
    requires t in SentTimes(h)
    ensures exists i :: 0 <= i < |h| && h[i].now == t
  {
    var n := |h| - 1;
    if h[n].outcome != Sent || t in SentTimes(h[..n]) {
      SentInHistory(h[..n], t);
      var i :| 0 <= i < n && h[..n][i].now == t;
      assert h[i].now == t;
    } else {
      assert h[n].now == t;
    }
  }

  /** One call counts the recent alerts as the full history would, and the new state tracks the longer history. */
  lemma {:induction false} SentStep(s: State, h: seq<Entry>, last: real, key: string, now: real)
    requires SentTracks(s, h, last) && Settled(h, last, now, RATE_WINDOW)
    ensures var (s', outcome, held) := Admit(s, key, now);
      && Recent(s.sent, now) == Recent(SentTimes(h), now)
      && SentTracks(s', h + [Entry(key, now, outcome, held)], now)
  {
    hide Recent, SentTimes, HeldSince;
    forall t | t in SentTimes(h) && now - t < RATE_WINDOW ensures last - t < RATE_WINDOW {
      SentInHistory(h, t);
    }
    RecentAgain(SentTimes(h), last, now);
    var (s', outcome, held) := Admit(s, key, now);
    HistoryStep(h, Entry(key, now, outcome, held), now);
    assert Recent(SentTimes(h), now) + [] == Recent(SentTimes(h), now);
  }

  /** One call knows the handled keys as the full history does. */
  lemma {:induction false} KeyStep(s: State, h: seq<Entry>, last: real, key: string, now: real)
    requires KeysTrack(s, h, last) && Settled(h, last, now, KEY_KEEP)
    ensures var (s', outcome, held) := Admit(s, key, now);
      && (outcome == Duplicate <==> HandledWithin(h, key, now))
      && KeysTrack(s', h + [Entry(key, now, outcome, held)], now)
  {
    hide Recent;
    var (s', outcome, held) := Admit(s, key, now);
    var h' := h + [Entry(key, now, outcome, held)];
    assert h'[..|h|] == h;
    forall k | HandledWithin(h, k, now) ensures HandledWithin(h, k, last) {
      var i := LastHandledFound(h, k);
    }
    assert forall k :: k in Pruned(s.keys, now) <==> HandledWithin(h, k, now);
    forall k ensures LastHandled(h', k) == if k == key && outcome != Duplicate then Some(now) else LastHandled(h, k) {
    }
  }

  lemma {:induction false} HistoryStep(h: seq<Entry>, e: Entry, now: real)
    requires e.now == now
    ensures Recent(SentTimes(h + [e]), now) == Recent(SentTimes(h), now) + if e.outcome == Sent then [now] else []
    ensures HeldSince(h + [e])
            == match e.outcome case Sent => 0 case Duplicate => HeldSince(h) case RateLimited => HeldSince(h) + 1
  {
    assert (h + [e])[..|h|] == h;
    if e.outcome == Sent {
      RecentAppend(SentTimes(h), now, now);
    } else {
      assert SentTimes(h + [e]) == SentTimes(h);
    }
  }

  function LastTime(calls: seq<Call>): real {
    if calls == [] then 0.0 else calls[|calls| - 1].now
  }

  lemma {:induction false} SettledAlongRun(calls: seq<Call>, window: real)
    requires calls != [] && Steady(Times(calls), window) && window > 0.0
    ensures var n := |calls| - 1; Settled(Run(calls[..n]).1, LastTime(calls[..n]), calls[n].now, window)
  {
    hide Run, Times, Steady;
    var n, ts := |calls| - 1, Times(calls);
    var h := Run(calls[..n]).1;
    Entries(calls[..n]);
    forall i | 0 <= i < |h| && calls[n].now - h[i].now < window ensures LastTime(calls[..n]) - h[i].now < window {
      assert calls[..n][i] == calls[i];
      if i < n - 1 {
        SteadyAt(ts, window, i, n - 1, n);
      }
    }
  }

  /** The entries of a run carry the keys and the readings of its calls. */
  lemma {:induction false} Entries(calls: seq<Call>)
    ensures var h := Run(calls).1;
      |h| == |calls| && forall i :: 0 <= i < |h| ==> h[i].key == calls[i].key && h[i].now == calls[i].now
  {
    if calls != [] {
      Entries(calls[..|calls| - 1]);
    }
  }

  lemma {:induction false} RunSent(calls: seq<Call>)
    requires Steady(Times(calls), RATE_WINDOW)
    ensures SentTracks(Run(calls).0, Run(calls).1, LastTime(calls))
  {
    if calls != [] {
      var n := |calls| - 1;
      hide Admit, Recent, SentTracks, Settled;
      SteadyPrefix(calls, n, RATE_WINDOW);
      RunSent(calls[..n]);
      SettledAlongRun(calls, RATE_WINDOW);
      SentStep(Run(calls[..n]).0, Run(calls[..n]).1, LastTime(calls[..n]), calls[n].key, calls[n].now);
    }
  }

  lemma {:induction false} RunKeys(calls: seq<Call>)
    requires Steady(Times(calls), KEY_KEEP)
    ensures KeysTrack(Run(calls).0, Run(calls).1, LastTime(calls))
  {
    if calls != [] {
      var n := |calls| - 1;
      hide Admit, KeysTrack, Settled;
      SteadyPrefix(calls, n, KEY_KEEP);
      RunKeys(calls[..n]);
      SettledAlongRun(calls, KEY_KEEP);
      KeyStep(Run(calls[..n]).0, Run(calls[..n]).1, LastTime(calls[..n]), calls[n].key, calls[n].now);
    }
  }

  lemma {:induction false} RunHeld(calls: seq<Call>)
    ensures Run(calls).0.heldBack == HeldSince(Run(calls).1)
  {
    if calls != [] {
      var n := |calls| - 1;
      RunHeld(calls[..n]);
      var h := Run(calls).1;
      assert h[..|h| - 1] == Run(calls[..n]).1;
    }
  }

  lemma {:induction false} RunSnoc(calls: seq<Call>, c: Call)
    ensures var (s, h) := Run(calls);
      var (s', outcome, held) := Admit(s, c.key, c.now);
      Run(calls + [c]) == (s', h + [Entry(c.key, c.now, outcome, held)])
  {
    assert (calls + [c])[..|calls|] == calls;
  }

  lemma {:induction false} RunExtends(calls: seq<Call>)
    requires calls != [] && |Run(calls).1| == |calls|
    ensures Run(calls).1[..|calls| - 1] == Run(calls[..|calls| - 1]).1
  {
  }

  /** Later calls do not change earlier entries. */
  lemma {:induction false} HistoryPrefix(calls: seq<Call>, i: nat)
    requires i <= |calls|
    ensures |Run(calls).1| == |calls| && Run(calls).1[..i] == Run(calls[..i]).1
  {
    if calls != [] {
      var n := |calls| - 1;
      if i < |calls| {
        HistoryPrefix(calls[..n], i);
        assert calls[..n][..i] == calls[..i];
        assert Run(calls).1[..i] == Run(calls[..n]).1[..i];
      } else {
        HistoryPrefix(calls[..n], n);
        assert calls[..i] == calls;
        assert Run(calls).1[..i] == Run(calls).1;
      }
    }
  }

  // ---- what forgetting could break ----

  /** The limiter sends nothing when the full history counts ten alerts within the hour. */
  ghost predicate RateKept(calls: seq<Call>) {
    var h := Run(calls).1;
    forall j :: 0 <= j < |h| && h[j].outcome == Sent ==> |Recent(SentTimes(h[..j]), h[j].now)| < RATE_MAX
  }

  /** The limiter handles no key that the full history shows handled within the retention. */
  ghost predicate KeysKept(calls: seq<Call>) {
    var h := Run(calls).1;
    forall j :: 0 <= j < |h| && h[j].outcome != Duplicate ==> !HandledWithin(h[..j], h[j].key, h[j].now)
  }

  /** Every outcome and every reported count is the one the full history of earlier calls dictates. */
  ghost predicate Faithful(calls: seq<Call>) {
    var h := Run(calls).1;
    forall j :: 0 <= j < |h| ==> (h[j].outcome, h[j].held) == Decision(h[..j], h[j].key, h[j].now)
  }

  /** Entry `j` is what the state after the first `j` calls admits. */
  lemma {:induction false} EntryIs(calls: seq<Call>, j: nat)
    requires j < |calls|
    ensures var s, h := Run(calls[..j]).0, Run(calls).1;
      && |h| == |calls| && h[..j] == Run(calls[..j]).1
      && h[j].key == calls[j].key && h[j].now == calls[j].now
      && (h[j].outcome, h[j].held) == (Admit(s, calls[j].key, calls[j].now).1, Admit(s, calls[j].key, calls[j].now).2)
  {
    HistoryPrefix(calls, j);
    HistoryPrefix(calls, j + 1);
    var upTo := calls[..j + 1];
    assert upTo[..j] == calls[..j] && upTo[|upTo| - 1] == calls[j];
    hide Admit;
    var e := Run(upTo).1[j];
    assert e == Run(calls).1[..j + 1][j] == Run(calls).1[j];
  }

  lemma {:induction false} SteadyEntry(calls: seq<Call>, j: nat, window: real)
    requires j < |calls| && Steady(Times(calls), window) && window > 0.0
    ensures Steady(Times(calls[..j]), window)
    ensures Settled(Run(calls[..j]).1, LastTime(calls[..j]), calls[j].now, window)
  {
    hide Run, Times, Steady, Settled;
    SteadyPrefix(calls, j, window);
    SteadyPrefix(calls, j + 1, window);
    SettledAlongRun(calls[..j + 1], window);
    assert calls[..j + 1][..j] == calls[..j];
  }

  lemma {:induction false} SteadyKeepsRate(calls: seq<Call>)
    requires Steady(Times(calls), RATE_WINDOW)
    ensures RateKept(calls)
  {
    hide Run, Steady, Settled, HandledWithin;
    var h := Run(calls).1;
    Entries(calls);
    forall j | 0 <= j < |h| && h[j].outcome == Sent ensures |Recent(SentTimes(h[..j]), h[j].now)| < RATE_MAX {
      EntryIs(calls, j);
      SteadyEntry(calls, j, RATE_WINDOW);
      RunSent(calls[..j]);
      SentStep(Run(calls[..j]).0, Run(calls[..j]).1, LastTime(calls[..j]), calls[j].key, calls[j].now);
    }
  }

  lemma {:induction false} SteadyKeepsKeys(calls: seq<Call>)
    requires Steady(Times(calls), KEY_KEEP)
    ensures KeysKept(calls)
  {
    hide Run, Steady, Settled, HandledWithin, KeysTrack;
    var h := Run(calls).1;
    Entries(calls);
    forall j | 0 <= j < |h| && h[j].outcome != Duplicate ensures !HandledWithin(h[..j], h[j].key, h[j].now) {
      EntryIs(calls, j);
      SteadyEntry(calls, j, KEY_KEEP);
      RunKeys(calls[..j]);
      KeyStep(Run(calls[..j]).0, Run(calls[..j]).1, LastTime(calls[..j]), calls[j].key, calls[j].now);
    }
  }

  lemma {:induction false} SteadyIsFaithful(calls: seq<Call>)
    requires Steady(Times(calls), RATE_WINDOW) && Steady(Times(calls), KEY_KEEP)
    ensures Faithful(calls)
  {
    hide Run, Steady, Settled, HandledWithin, KeysTrack;
    var h := Run(calls).1;
    Entries(calls);
    forall j | 0 <= j < |h| ensures (h[j].outcome, h[j].held) == Decision(h[..j], h[j].key, h[j].now) {
      EntryIs(calls, j);
      SteadyEntry(calls, j, RATE_WINDOW);
      SteadyEntry(calls, j, KEY_KEEP);
      RunSent(calls[..j]);
      RunKeys(calls[..j]);
      RunHeld(calls[..j]);
      SentStep(Run(calls[..j]).0, Run(calls[..j]).1, LastTime(calls[..j]), calls[j].key, calls[j].now);
      KeyStep(Run(calls[..j]).0, Run(calls[..j]).1, LastTime(calls[..j]), calls[j].key, calls[j].now);
    }
  }

  /** With a clock that never steps back forgetting is invisible. */
  lemma {:induction false} PruningIsInvisible(calls: seq<Call>)
    requires ClockAdvances(calls)
    ensures Faithful(calls)
  {
    hide Faithful, Steady;
    AdvancingIsSteady(calls, RATE_WINDOW);
    AdvancingIsSteady(calls, KEY_KEEP);
    SteadyIsFaithful(calls);
  }

  // ---- the rate ----

  ghost predicate Ascending(ts: seq<real>) {
    forall i, j :: 0 <= i <= j < |ts| ==> ts[i] <= ts[j]
  }

  /** The last `k` times are recent when the earliest of them is. */
  lemma {:induction false} RecentAtLeast(ts: seq<real>, now: real, k: nat)
    requires Ascending(ts) && 0 < k <= |ts| && now - ts[|ts| - k] < RATE_WINDOW
    ensures |Recent(ts, now)| >= k
  {
    var n := |ts| - 1;
    assert ts[|ts| - k] <= ts[n];
    if k > 1 {
      assert ts[..n][|ts[..n]| - (k - 1)] == ts[|ts| - k];
      RecentAtLeast(ts[..n], now, k - 1);
    }
  }

  ghost predicate Spaced(ts: seq<real>) {
    forall i :: 0 <= i && i + RATE_MAX < |ts| ==> ts[i + RATE_MAX] - ts[i] >= RATE_WINDOW
  }

  lemma {:induction false} SpacedStep(ts: seq<real>, now: real)
    requires Ascending(ts) && Spaced(ts) && (forall t :: t in ts ==> t <= now)
    requires |Recent(ts, now)| < RATE_MAX
    ensures Ascending(ts + [now]) && Spaced(ts + [now])
  {
    hide Recent;
    assert forall i :: 0 <= i < |ts| ==> ts[i] in ts;
    if |ts| >= RATE_MAX && now - ts[|ts| - RATE_MAX] < RATE_WINDOW {
      RecentAtLeast(ts, now, RATE_MAX);
    }
  }

  /** No eleven alerts go out within less than an hour. */
  lemma {:induction false} AtMostTenPerHour(calls: seq<Call>)
    requires ClockAdvances(calls)
    ensures Spaced(SentTimes(Run(calls).1)) && Ascending(SentTimes(Run(calls).1))
    ensures calls != [] ==> forall t :: t in SentTimes(Run(calls).1) ==> t <= calls[|calls| - 1].now
  {
    if calls != [] {
      var n := |calls| - 1;
      AtMostTenPerHour(calls[..n]);
      PruningIsInvisible(calls);
      Entries(calls);
      RunExtends(calls);
      var h, now := Run(calls).1, calls[n].now;
      var ts := SentTimes(h[..n]);
      assert n > 0 ==> calls[..n][n - 1].now <= now;
      assert SentTimes([]) == [];
      hide Run, Recent, LastHandled, Spaced, Ascending;
      if h[n].outcome == Sent {
        SpacedStep(ts, now);
      } else {
        assert SentTimes(h) == ts;
      }
    }
  }

  // ---- the keys ----

  lemma {:induction false} LastHandledIsLast(h: seq<Entry>, key: string, i: nat)
    requires i < |h| && h[i].key == key && h[i].outcome != Duplicate
    requires forall a, b :: 0 <= a <= b < |h| ==> h[a].now <= h[b].now
    ensures LastHandled(h, key).Some? && LastHandled(h, key).value >= h[i].now
  {
    var n := |h| - 1;
    if i < n && (h[n].key != key || h[n].outcome == Duplicate) {
      LastHandledIsLast(h[..n], key, i);
    }
  }

  lemma {:induction false} LastHandledFound(h: seq<Entry>, key: string) returns (i: nat)
    requires LastHandled(h, key).Some?
    ensures i < |h| && h[i].key == key && h[i].outcome != Duplicate && h[i].now == LastHandled(h, key).value
  {
    i := |h| - 1;
    if h[i].key != key || h[i].outcome == Duplicate {
      i := LastHandledFound(h[..i], key);
    }
  }

  /** A call is refused as a duplicate exactly when an earlier call handled its key within the retention. */
  lemma {:induction false} DuplicateIff(calls: seq<Call>, j: nat)
    requires ClockAdvances(calls) && j < |calls|
    ensures var h := Run(calls).1;
      |h| == |calls|
      && (h[j].outcome == Duplicate
          <==> exists i: nat :: i < j && h[i].key == h[j].key && h[i].outcome != Duplicate
                                && h[j].now - h[i].now < KEY_KEEP)
  {
    hide Run, Recent, LastHandled;
    var h := Run(calls).1;
    PruningIsInvisible(calls);
    Entries(calls);
    if h[j].outcome == Duplicate {
      var i := LastHandledFound(h[..j], h[j].key);
      assert h[i] == h[..j][i];
    }
    forall i: nat | i < j && h[i].key == h[j].key && h[i].outcome != Duplicate && h[j].now - h[i].now < KEY_KEEP
      ensures h[j].outcome == Duplicate
    {
      assert h[..j][i] == h[i];
      LastHandledIsLast(h[..j], h[j].key, i);
    }
  }

  // ---- nothing held back is lost ----

  function CountLimited(h: seq<Entry>): nat {
    if h == [] then 0
    else CountLimited(h[..|h| - 1]) + if h[|h| - 1].outcome == RateLimited then 1 else 0
  }

  function Reported(h: seq<Entry>): nat {
    if h == [] then 0 else Reported(h[..|h| - 1]) + h[|h| - 1].held
  }

  /** Every held-back alert is either pending or was reported once; this needs no clock. */
  lemma {:induction false} HeldBackIsConserved(calls: seq<Call>)
    ensures CountLimited(Run(calls).1) == Run(calls).0.heldBack + Reported(Run(calls).1)
  {
    if calls != [] {
      HeldBackIsConserved(calls[..|calls| - 1]);
      var h := Run(calls).1;
      assert h[..|h| - 1] == Run(calls[..|calls| - 1]).1;
    }
  }

  // ---- a clock that is not steady ----

  /** Keys of different lengths. */
  function Name(n: nat): (s: string)
    ensures |s| == n
  {
    if n == 0 then "" else Name(n - 1) + "x"
  }

  /** `n` calls with different keys at one reading. */
  function Burst(n: nat, t: real): (calls: seq<Call>)
    ensures |calls| == n && forall i :: 0 <= i < n ==> calls[i] == Call(Name(i), t)
  {
    if n == 0 then [] else Burst(n - 1, t) + [Call(Name(n - 1), t)]
  }

  /** All `n` calls at the reading `t` went out. */
  ghost predicate AllOut(s: State, h: seq<Entry>, n: nat, t: real) {
    && |h| == n && (forall i :: 0 <= i < n ==> h[i].outcome == Sent)
    && s.sent == SentTimes(h) && |s.sent| == n && (forall i :: 0 <= i < n ==> s.sent[i] == t)
    && (forall k :: k in s.keys ==> |k| < n)
  }

  lemma {:induction false} OneMoreOut(s: State, h: seq<Entry>, n: nat, t: real, key: string)
    requires n < RATE_MAX && AllOut(s, h, n, t) && |key| == n
    ensures var (s', outcome, held) := Admit(s, key, t); AllOut(s', h + [Entry(key, t, outcome, held)], n + 1, t)
  {
    hide Admit, Recent, SentTimes;
    AllRecent(s.sent, t);
    FreshGoesOut(s, key, t);
    SentSnoc(h, Entry(key, t, Sent, s.heldBack));
  }

  /** The first ten of them all go out. */
  lemma {:induction false} BurstGoesOut(n: nat, t: real)
    requires n <= RATE_MAX
    ensures AllOut(Run(Burst(n, t)).0, Run(Burst(n, t)).1, n, t)
  {
    hide *;
    BurstUnfolds(n, t);
    if n == 0 {
      NoneOut(t);
    } else {
      var before, call := Burst(n - 1, t), Call(Name(n - 1), t);
      BurstGoesOut(n - 1, t);
      RunSnoc(before, call);
      OneMoreOut(Run(before).0, Run(before).1, n - 1, t, Name(n - 1));
    }
  }

  lemma {:induction false} BurstUnfolds(n: nat, t: real)
    ensures Burst(n, t) == if n == 0 then [] else Burst(n - 1, t) + [Call(Name(n - 1), t)]
  {
    hide Name;
  }

  lemma {:induction false} NoneOut(t: real)
    ensures AllOut(Run([]).0, Run([]).1, 0, t)
  {
    hide Admit;
  }

  /** A key that is not held goes out when fewer than ten alerts are recent. */
  lemma {:induction false} FreshGoesOut(s: State, key: string, now: real)
    requires key !in s.keys && |Recent(s.sent, now)| < RATE_MAX
    ensures var (s', outcome, held) := Admit(s, key, now);
      && outcome == Sent && held == s.heldBack && s'.sent == Recent(s.sent, now) + [now]
      && (forall k :: k in s'.keys ==> k == key || k in s.keys)
  {
    hide Recent;
  }

  lemma {:induction false} SentSnoc(h: seq<Entry>, e: Entry)
    ensures SentTimes(h + [e]) == SentTimes(h) + if e.outcome == Sent then [e.now] else []
  {
    assert (h + [e])[..|h|] == h;
  }

  /** Ten alerts at `a`, one when they have expired, and one at a reading at which they have not: all go out. */
  function Rewound(a: real, b: real, c: real): seq<Call> {
    Burst(10, a) + [Call(Name(10), b)] + [Call(Name(11), c)]
  }

  lemma {:induction false} ElevenGoOut(a: real, b: real)
    requires b - a >= RATE_WINDOW
    ensures var h := Run(Burst(10, a)).1;
      var (s', h') := Run(Burst(10, a) + [Call(Name(10), b)]);
      && |h'| == 11 && (forall i :: 0 <= i < 11 ==> h'[i].outcome == Sent)
      && SentTimes(h') == SentTimes(h) + [b] && s'.sent == [b] && (forall k :: k in s'.keys ==> |k| < 11)
  {
    hide Run, Admit, Recent, SentTimes, Burst;
    BurstGoesOut(10, a);
    var (s, h) := Run(Burst(10, a));
    NoneRecent(s.sent, b);
    RunSnoc(Burst(10, a), Call(Name(10), b));
    FreshGoesOut(s, Name(10), b);
    SentSnoc(h, Entry(Name(10), b, Sent, s.heldBack));
    assert [] + [b] == [b];
  }

  lemma {:induction false} RewoundGoesOut(a: real, b: real, c: real)
    requires b - a >= RATE_WINDOW
    ensures var h := Run(Rewound(a, b, c)).1;
      && |h| == 12 && (forall i :: 0 <= i < 12 ==> h[i].outcome == Sent) && h[11].now == c
      && SentTimes(h[..11]) == SentTimes(Run(Burst(10, a)).1) + [b]
  {
    hide Run, Admit, Recent, SentTimes, Burst;
    ElevenGoOut(a, b);
    var second := Burst(10, a) + [Call(Name(10), b)];
    var (s', h') := Run(second);
    RecentShrinks(s'.sent, c);
    RunSnoc(second, Call(Name(11), c));
    FreshGoesOut(s', Name(11), c);
    assert Run(Rewound(a, b, c)).1[..11] == h';
  }

  lemma {:induction false} RecentShrinks(ts: seq<real>, now: real)
    ensures |Recent(ts, now)| <= |ts|
  {
    if ts != [] {
      RecentShrinks(ts[..|ts| - 1], now);
    }
  }

  /** Then the full history counts ten alerts within the hour. */
  lemma {:induction false} RewoundBreaksRate(a: real, b: real, c: real)
    requires b - a >= RATE_WINDOW > c - a
    ensures !RateKept(Rewound(a, b, c))
  {
    hide Run, Rewound, Burst, Recent;
    RewoundGoesOut(a, b, c);
    BurstGoesOut(10, a);
    var ten := SentTimes(Run(Burst(10, a)).1);
    AllRecent(ten, c);
    RecentAppend(ten, b, c);
  }

  /** A set-back clock: eleven alerts go out at time zero. */
  lemma {:induction false} ClockSetBackForgets()
    ensures var h := Run(Rewound(0.0, RATE_WINDOW, 0.0)).1;
      |h| == 12 && forall i :: 0 <= i < 12 && i != 10 ==> h[i].outcome == Sent && h[i].now == 0.0
  {
    hide Run, Recent;
    RewoundGoesOut(0.0, RATE_WINDOW, 0.0);
    Entries(Rewound(0.0, RATE_WINDOW, 0.0));
  }

  lemma {:induction false} RewoundReads(rs: seq<real>, i: nat, k: nat, j: nat)
    requires i < k < j < |rs|
    ensures Reads(Rewound(rs[i], rs[k], rs[j]), rs, seq(12, m => if m < 10 then i else if m == 10 then k else j))
  {
  }

  /** The hourly limit holds for every choice of keys exactly when no reading comes back within an hour of one
      that had expired. */
  lemma {:induction false} RateHoldsIff(rs: seq<real>)
    ensures (forall calls, at :: Reads(calls, rs, at) ==> RateKept(calls)) <==> Steady(rs, RATE_WINDOW)
  {
    hide Reads, RateKept;
    if Steady(rs, RATE_WINDOW) {
      forall calls, at | Reads(calls, rs, at) ensures RateKept(calls) {
        ReadsSteady(calls, rs, at, RATE_WINDOW);
        SteadyKeepsRate(calls);
      }
    } else {
      var i, k, j :| 0 <= i < k < j < |rs| && rs[k] - rs[i] >= RATE_WINDOW && rs[j] - rs[i] < RATE_WINDOW;
      RewoundReads(rs, i, k, j);
      RewoundBreaksRate(rs[i], rs[k], rs[j]);
    }
  }

  /** One key twice, with another call in between. */
  function Again(a: real, b: real, c: real): seq<Call> {
    [Call("", a), Call("x", b), Call("", c)]
  }

  lemma {:induction false} AgainBreaksKeys(a: real, b: real, c: real)
    requires b - a >= KEY_KEEP > c - a
    ensures !KeysKept(Again(a, b, c))
  {
    AgainIsNotDuplicate(a, b, c);
    FirstIsHandled(a, b);
    var h := Run(Again(a, b, c)).1;
    hide Run, LastHandled, Again;
    assert HandledWithin(h[..2], h[2].key, h[2].now);
  }

  lemma {:induction false} AgainIsNotDuplicate(a: real, b: real, c: real)
    requires b - a >= KEY_KEEP
    ensures var h := Run(Again(a, b, c)).1;
      && |h| == 3 && h[..2] == [Entry("", a, Sent, 0), Entry("x", b, Sent, 0)]
      && h[2].key == "" && h[2].now == c && h[2].outcome != Duplicate
  {
    hide Run, Admit;
    var two := [Call("", a), Call("x", b)];
    TwoCalls(a, b);
    RunSnoc(two, Call("", c));
    assert two + [Call("", c)] == Again(a, b, c);
    NotHeldIsNew(Run(two).0, "", c);
  }

  lemma {:induction false} NotHeldIsNew(s: State, key: string, now: real)
    requires key !in s.keys
    ensures Admit(s, key, now).1 != Duplicate
  {
    hide Recent;
  }

  lemma {:induction false} FirstIsHandled(a: real, b: real)
    ensures LastHandled([Entry("", a, Sent, 0), Entry("x", b, Sent, 0)], "") == Some(a)
  {
    var two := [Entry("", a, Sent, 0), Entry("x", b, Sent, 0)];
    assert two[..1] == [Entry("", a, Sent, 0)] && "x" != "";
    assert LastHandled(two[..1], "") == Some(a);
  }

  lemma {:induction false} OneCall(a: real)
    ensures Run([Call("", a)]) == (State(map["" := a], [a], 0), [Entry("", a, Sent, 0)])
  {
    var calls := [Call("", a)];
    assert calls == [] + [Call("", a)];
    RunSnoc([], Call("", a));
    assert Pruned(map[], a) == map[] && Recent([], a) == [];
    assert Run([]) == (EMPTY, []);
    assert [] + [a] == [a] && [] + [Entry("", a, Sent, 0)] == [Entry("", a, Sent, 0)];
  }

  lemma {:induction false} TwoCalls(a: real, b: real)
    requires b - a >= KEY_KEEP
    ensures var (s, h) := Run([Call("", a), Call("x", b)]);
      && s.keys == map["x" := b] && h == [Entry("", a, Sent, 0), Entry("x", b, Sent, 0)]
  {
    OneCall(a);
    RunSnoc([Call("", a)], Call("x", b));
    assert [Call("", a)] + [Call("x", b)] == [Call("", a), Call("x", b)];
    RecentShrinks([a], b);
    hide Recent, Run;
    assert Pruned(map["" := a], b) == map[];
  }

  lemma {:induction false} AgainReads(rs: seq<real>, i: nat, k: nat, j: nat)
    requires i < k < j < |rs|
    ensures Reads(Again(rs[i], rs[k], rs[j]), rs, [i, k, j])
  {
  }

  /** No key is handled twice within the retention, for every choice of keys, exactly when the clock is steady
      over it. */
  lemma {:induction false} KeysHoldIff(rs: seq<real>)
    ensures (forall calls, at :: Reads(calls, rs, at) ==> KeysKept(calls)) <==> Steady(rs, KEY_KEEP)
  {
    hide Reads, KeysKept;
    if Steady(rs, KEY_KEEP) {
      forall calls, at | Reads(calls, rs, at) ensures KeysKept(calls) {
        ReadsSteady(calls, rs, at, KEY_KEEP);
        SteadyKeepsKeys(calls);
      }
    } else {
      var i, k, j :| 0 <= i < k < j < |rs| && rs[k] - rs[i] >= KEY_KEEP && rs[j] - rs[i] < KEY_KEEP;
      AgainReads(rs, i, k, j);
      AgainBreaksKeys(rs[i], rs[k], rs[j]);
    }
  }

  lemma {:induction false} FaithfulKeeps(calls: seq<Call>)
    requires Faithful(calls)
    ensures RateKept(calls) && KeysKept(calls)
  {
    hide Run, Recent, HandledWithin;
    var h := Run(calls).1;
    assert forall j :: 0 <= j < |h| ==> (h[j].outcome, h[j].held) == Decision(h[..j], h[j].key, h[j].now);
  }

  /** Forgetting is invisible, whatever the keys, exactly when the clock readings are steady over both windows. */
  lemma {:induction false} ForgettingIsInvisibleIff(rs: seq<real>)
    ensures (forall calls, at :: Reads(calls, rs, at) ==> Faithful(calls))
            <==> Steady(rs, RATE_WINDOW) && Steady(rs, KEY_KEEP)
  {
    hide Reads, Faithful, RateKept, KeysKept, Steady;
    if Steady(rs, RATE_WINDOW) && Steady(rs, KEY_KEEP) {
      forall calls, at | Reads(calls, rs, at) ensures Faithful(calls) {
        ReadsSteady(calls, rs, at, RATE_WINDOW);
        ReadsSteady(calls, rs, at, KEY_KEEP);
        SteadyIsFaithful(calls);
      }
    }
    if forall calls, at :: Reads(calls, rs, at) ==> Faithful(calls) {
      forall calls, at | Reads(calls, rs, at) ensures RateKept(calls) && KeysKept(calls) {
        FaithfulKeeps(calls);
      }
      RateHoldsIff(rs);
      KeysHoldIff(rs);
    }
  }

  lemma {:induction false} AllRecent(ts: seq<real>, now: real)
    requires forall i :: 0 <= i < |ts| ==> now - ts[i] < RATE_WINDOW
    ensures Recent(ts, now) == ts
  {
    if ts != [] {
      AllRecent(ts[..|ts| - 1], now);
    }
  }

  lemma {:induction false} NoneRecent(ts: seq<real>, now: real)
    requires forall i :: 0 <= i < |ts| ==> now - ts[i] >= RATE_WINDOW
    ensures Recent(ts, now) == []
  {
    if ts != [] {
      NoneRecent(ts[..|ts| - 1], now);
    }
  }

  // ---- the persisted object ----

  class Hook {
    var keys: map<string, real>
    var sent: seq<real>
    var heldBack: nat

    constructor ()
      ensures Value() == EMPTY
    {
      keys, sent, heldBack := map[], [], 0;
    }

    ghost function Value(): State
      reads this
    {
      State(keys, sent, heldBack)
    }

    /** `admit`. */
    method Reserve(key: string, now: real) returns (outcome: Outcome, held: nat)
      modifies this
      ensures (Value(), outcome, held) == Admit(old(Value()), key, now)
    {
      keys := Pruned(keys, now);
      sent := Recent(sent, now);
      if key in keys {
        return Duplicate, 0;
      }
      keys := keys[key := now];
      if |sent| >= RATE_MAX {
        heldBack := heldBack + 1;
        return RateLimited, 0;
      }
      sent := sent + [now];
      outcome, held := Sent, heldBack;
      heldBack := 0;
    }
  }
}
