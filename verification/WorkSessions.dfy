/** `estimate_work_intervals` (productivity.py:259-274): work sessions estimated from prompt times. */
module WorkSessions {
  import opened Productivity

  const MINUTE := 60_000_000

  function InsertTime(t: int, ts: seq<int>): seq<int> {
    if ts == [] || t < ts[0] then [t] + ts
    else if t == ts[0] then ts
    else [ts[0]] + InsertTime(t, ts[1..])
  }

  /** `sorted(set(times))`. */
  function Times(prompts: seq<int>): seq<int> {
    if prompts == [] then [] else InsertTime(prompts[0], Times(prompts[1..]))
  }

  ghost predicate Increasing(ts: seq<int>) {
    forall i, j :: 0 <= i < j < |ts| ==> ts[i] < ts[j]
  }

  lemma {:induction false} InsertTimeSorts(t: int, ts: seq<int>)
    requires Increasing(ts)
    ensures Increasing(InsertTime(t, ts))
    ensures forall x :: x in InsertTime(t, ts) <==> x == t || x in ts
  {
    if ts != [] && t > ts[0] {
      InsertTimeSorts(t, ts[1..]);
      assert ts == [ts[0]] + ts[1..];
      var rest := InsertTime(t, ts[1..]);
      forall j | 0 <= j < |rest| ensures ts[0] < rest[j] {
        assert rest[j] in rest;
      }
    } else if ts != [] && t < ts[0] {
      forall j | 0 <= j < |ts| ensures t < ts[j] {
        assert ts[0] <= ts[j];
      }
    }
  }

  lemma {:induction false} TimesSorts(prompts: seq<int>)
    ensures Increasing(Times(prompts))
    ensures forall t :: t in Times(prompts) <==> t in prompts
  {
    if prompts != [] {
      TimesSorts(prompts[1..]);
      InsertTimeSorts(prompts[0], Times(prompts[1..]));
      assert prompts == [prompts[0]] + prompts[1..];
    }
  }

  /** The sessions once a session is open from `start`, its last prompt was at `last` and `rest` follows. */
  function Onwards(start: int, last: int, rest: seq<int>, gap: int, tail: int): seq<Interval>
    decreases |rest|
  {
    if rest == [] then [Interval(start, last + tail)]
    else if rest[0] - last > gap then [Interval(start, last + tail)] + Onwards(rest[0], rest[0], rest[1..], gap, tail)
    else Onwards(start, rest[0], rest[1..], gap, tail)
  }

  function Sessions(prompts: seq<int>, gap: int, tail: int): seq<Interval> {
    var ts := Times(prompts);
    if ts == [] then [] else Onwards(ts[0], ts[0], ts[1..], gap, tail)
  }

  /** The session was running at the prompt time `t`. */
  predicate Includes(session: Interval, t: int, tail: int) {
    session.start <= t <= session.end - tail
  }

  ghost predicate Shared(sessions: seq<Interval>, a: int, b: int, tail: int) {
    exists k :: 0 <= k < |sessions| && Includes(sessions[k], a, tail) && Includes(sessions[k], b, tail)
  }

  /** Sessions follow each other with more than `gap` from the last prompt of one to the first of the next. */
  ghost predicate Apart(sessions: seq<Interval>, gap: int, tail: int) {
    forall i, j :: 0 <= i < j < |sessions| ==> sessions[j].start - (sessions[i].end - tail) > gap
  }

  lemma {:induction false} OnwardsBounds(start: int, last: int, rest: seq<int>, gap: int, tail: int)
    requires start <= last && Increasing([last] + rest)
    ensures var s := Onwards(start, last, rest, gap, tail);
      && s != [] && s[0].start == start && s[0].end - tail >= last
      && (forall k :: 0 <= k < |s| ==> start <= s[k].start <= s[k].end - tail)
      && Apart(s, gap, tail)
    decreases |rest|
  {
    if rest != [] {
      assert ([last] + rest)[1..] == rest && [rest[0]] + rest[1..] == rest;
      assert ([last] + rest)[0] < ([last] + rest)[1];
      if rest[0] - last > gap {
        var more := Onwards(rest[0], rest[0], rest[1..], gap, tail);
        OnwardsBounds(rest[0], rest[0], rest[1..], gap, tail);
        var s := [Interval(start, last + tail)] + more;
        forall i, j | 0 <= i < j < |s| ensures s[j].start - (s[i].end - tail) > gap {
          assert s[j] == more[j - 1];
          if i > 0 {
            assert s[i] == more[i - 1];
          }
        }
      } else {
        OnwardsBounds(start, rest[0], rest[1..], gap, tail);
      }
    }
  }

  lemma TailIncreases(last: int, rest: seq<int>)
    requires rest != [] && Increasing([last] + rest)
    ensures last < rest[0] && Increasing([rest[0]] + rest[1..]) && ([last] + rest)[1..] == rest
  {
    assert [rest[0]] + rest[1..] == rest == ([last] + rest)[1..];
    assert ([last] + rest)[0] < ([last] + rest)[1];
  }

  lemma {:induction false} OnwardsUnfolds(start: int, last: int, rest: seq<int>, gap: int, tail: int)
    requires rest != []
    ensures var next := if rest[0] - last > gap then rest[0] else start;
      var more := Onwards(next, rest[0], rest[1..], gap, tail);
      Onwards(start, last, rest, gap, tail)
      == if rest[0] - last > gap then [Interval(start, last + tail)] + more else more
  {
  }

  /** Two neighbouring prompts share a session exactly when they are at most `gap` apart. */
  lemma {:induction false} OnwardsJoins(start: int, last: int, rest: seq<int>, gap: int, tail: int, i: nat)
    requires start <= last && Increasing([last] + rest) && i < |rest|
    ensures var ts := [last] + rest;
      Shared(Onwards(start, last, rest, gap, tail), ts[i], ts[i + 1], tail) <==> ts[i + 1] - ts[i] <= gap
    decreases |rest|
  {
    var ts := [last] + rest;
    var next := if rest[0] - last > gap then rest[0] else start;
    var more := Onwards(next, rest[0], rest[1..], gap, tail);
    hide Shared, Onwards, Apart, Increasing;
    TailIncreases(last, rest);
    OnwardsUnfolds(start, last, rest, gap, tail);
    OnwardsBounds(next, rest[0], rest[1..], gap, tail);
    if i > 0 {
      OnwardsJoins(next, rest[0], rest[1..], gap, tail, i - 1);
      assert ts[i] == rest[i - 1] && ts[i + 1] == rest[i];
    }
    if rest[0] - last > gap {
      SharedCons(Interval(start, last + tail), more, ts[i], ts[i + 1], tail);
      if i == 0 {
        NotYetShared(more, last, ts[1], tail);
      }
    } else if i == 0 {
      SharedHead(more, last, rest[0], tail);
    }
  }

  lemma NotYetShared(s: seq<Interval>, a: int, b: int, tail: int)
    requires forall k :: 0 <= k < |s| ==> a < s[k].start
    ensures !Shared(s, a, b, tail)
  {
  }

  lemma SharedHead(s: seq<Interval>, a: int, b: int, tail: int)
    requires s != [] && Includes(s[0], a, tail) && Includes(s[0], b, tail)
    ensures Shared(s, a, b, tail)
  {
  }

  lemma SharedCons(first: Interval, more: seq<Interval>, a: int, b: int, tail: int)
    ensures Shared([first] + more, a, b, tail)
            <==> (Includes(first, a, tail) && Includes(first, b, tail)) || Shared(more, a, b, tail)
  {
    var s := [first] + more;
    if Includes(first, a, tail) && Includes(first, b, tail) {
      assert s[0] == first;
    } else if Shared(more, a, b, tail) {
      var k :| 0 <= k < |more| && Includes(more[k], a, tail) && Includes(more[k], b, tail);
      assert s[k + 1] == more[k];
    }
  }

  /** The sessions cut the sorted prompts exactly where neighbours are more than `gap` apart. */
  lemma SessionsCutAtGaps(prompts: seq<int>, gap: int, tail: int)
    ensures var ts, sessions := Times(prompts), Sessions(prompts, gap, tail);
      && Apart(sessions, gap, tail)
      && (forall i :: 0 <= i < |ts| - 1 ==> (Shared(sessions, ts[i], ts[i + 1], tail) <==> ts[i + 1] - ts[i] <= gap))
  {
    var ts, sessions := Times(prompts), Sessions(prompts, gap, tail);
    TimesSorts(prompts);
    if ts != [] {
      assert [ts[0]] + ts[1..] == ts;
      OnwardsBounds(ts[0], ts[0], ts[1..], gap, tail);
      forall i | 0 <= i < |ts| - 1
        ensures Shared(sessions, ts[i], ts[i + 1], tail) <==> ts[i + 1] - ts[i] <= gap
      {
        OnwardsJoins(ts[0], ts[0], ts[1..], gap, tail, i);
      }
    }
  }

  // ---- every prompt is in a session, and a session begins and ends at prompts ----

  ghost predicate Anchored(s: seq<Interval>, ts: seq<int>, tail: int) {
    forall k :: 0 <= k < |s| ==> s[k].start in ts && s[k].end - tail in ts
  }

  lemma {:induction false} OnwardsAnchored(start: int, last: int, rest: seq<int>, gap: int, tail: int, ts: seq<int>)
    requires start in ts && last in ts && forall t :: t in rest ==> t in ts
    ensures Anchored(Onwards(start, last, rest, gap, tail), ts, tail)
    decreases |rest|
  {
    if rest != [] {
      OnwardsAnchored(rest[0], rest[0], rest[1..], gap, tail, ts);
      OnwardsAnchored(start, rest[0], rest[1..], gap, tail, ts);
    }
  }

  lemma {:induction false} OnwardsIncludes(start: int, last: int, rest: seq<int>, gap: int, tail: int, t: int)
    requires start <= last && Increasing([last] + rest) && (t == last || t in rest)
    ensures exists session :: session in Onwards(start, last, rest, gap, tail) && Includes(session, t, tail)
    decreases |rest|
  {
    var s := Onwards(start, last, rest, gap, tail);
    OnwardsBounds(start, last, rest, gap, tail);
    if t == last {
      assert s[0] in s && Includes(s[0], t, tail);
    } else {
      assert ([last] + rest)[1..] == rest && [rest[0]] + rest[1..] == rest;
      assert ([last] + rest)[0] < ([last] + rest)[1];
      OnwardsIncludes(if rest[0] - last > gap then rest[0] else start, rest[0], rest[1..], gap, tail, t);
    }
  }

  lemma EveryPromptIsInASession(prompts: seq<int>, gap: int, tail: int)
    ensures var sessions := Sessions(prompts, gap, tail);
      && Anchored(sessions, prompts, tail)
      && forall t :: t in prompts ==> exists session :: session in sessions && Includes(session, t, tail)
  {
    var ts := Times(prompts);
    TimesSorts(prompts);
    if ts != [] {
      assert [ts[0]] + ts[1..] == ts;
      OnwardsAnchored(ts[0], ts[0], ts[1..], gap, tail, prompts);
      forall t | t in prompts
        ensures exists session :: session in Sessions(prompts, gap, tail) && Includes(session, t, tail)
      {
        OnwardsIncludes(ts[0], ts[0], ts[1..], gap, tail, t);
      }
    } else {
      assert forall t :: t in prompts ==> t in ts;
    }
  }

  // ---- disjointness ----

  ghost predicate Disjoint(sessions: seq<Interval>) {
    forall i, j :: 0 <= i < j < |sessions| ==> sessions[i].end <= sessions[j].start
  }

  /** Prompts one microsecond past the gap give sessions that overlap when the tail is longer than the gap. */
  lemma LongTailOverlaps(gapMinutes: nat, tailMinutes: nat)
    requires gapMinutes < tailMinutes
    ensures !Disjoint(Sessions([0, gapMinutes * MINUTE + 1], gapMinutes * MINUTE, tailMinutes * MINUTE))
  {
    var gap, tail := gapMinutes * MINUTE, tailMinutes * MINUTE;
    assert gap + MINUTE <= tail;
    var prompts := [0, gap + 1];
    assert prompts[1..] == [gap + 1] && [gap + 1][1..] == [];
    assert Times(prompts[1..]) == [gap + 1];
    assert Times(prompts) == [0, gap + 1];
    assert [0, gap + 1][1..] == [gap + 1];
    assert Onwards(gap + 1, gap + 1, [], gap, tail) == [Interval(gap + 1, gap + 1 + tail)];
    var s := Sessions(prompts, gap, tail);
    assert s == [Interval(0, tail)] + [Interval(gap + 1, gap + 1 + tail)];
    assert s[0].end == tail > s[1].start;
  }

  /** Sessions never overlap, whatever the prompts, exactly when the tail is at most the gap. */
  lemma DisjointIffTailFits(gapMinutes: nat, tailMinutes: nat)
    ensures (forall prompts :: Disjoint(Sessions(prompts, gapMinutes * MINUTE, tailMinutes * MINUTE)))
            <==> tailMinutes <= gapMinutes
  {
    var gap, tail := gapMinutes * MINUTE, tailMinutes * MINUTE;
    if tailMinutes <= gapMinutes {
      forall prompts ensures Disjoint(Sessions(prompts, gap, tail)) {
        SessionsCutAtGaps(prompts, gap, tail);
      }
    } else {
      LongTailOverlaps(gapMinutes, tailMinutes);
    }
  }

  lemma {:induction false} DisjointAddsUp(s: seq<Interval>)
    requires Disjoint(s) && forall k :: 0 <= k < |s| ==> s[k].start <= s[k].end
    ensures |Covered(s)| == Gross(s)
  {
    if s != [] {
      var n := |s| - 1;
      DisjointAddsUp(s[..n]);
      SpanSize(s[n]);
      forall t | t in Covered(s[..n]) ensures t !in Span(s[n]) {
        CoveredIff(s[..n], t);
        var iv :| iv in s[..n] && t in Span(iv);
      }
      UnionSize(Covered(s[..n]), Span(s[n]));
      assert Span(s[n]) - Covered(s[..n]) == Span(s[n]);
    }
  }

  /** Then the daily totals, which add session lengths, and the project totals, which take the union, count the
      same observed time. */
  lemma WorkIsCountedOnce(prompts: seq<int>, gapMinutes: nat, tailMinutes: nat)
    requires tailMinutes <= gapMinutes
    ensures var sessions := Sessions(prompts, gapMinutes * MINUTE, tailMinutes * MINUTE);
      |Covered(sessions)| == Gross(sessions)
  {
    hide Covered, Gross;
    var gap, tail := gapMinutes * MINUTE, tailMinutes * MINUTE;
    var ts, sessions := Times(prompts), Sessions(prompts, gap, tail);
    DisjointIffTailFits(gapMinutes, tailMinutes);
    TimesSorts(prompts);
    if ts != [] {
      assert [ts[0]] + ts[1..] == ts;
      OnwardsBounds(ts[0], ts[0], ts[1..], gap, tail);
    }
    DisjointAddsUp(sessions);
  }

  /** `estimate_work_intervals`. */
  method EstimateWorkIntervals(prompts: seq<int>, gapMinutes: int, tailMinutes: int)
    returns (sessions: seq<Interval>)
    ensures sessions == Sessions(prompts, gapMinutes * MINUTE, tailMinutes * MINUTE)
  {
    hide Times;
    var times := Times(prompts);
    if times == [] {
      return [];
    }
    var gap, tail := gapMinutes * MINUTE, tailMinutes * MINUTE;
    sessions := [];
    var start, last := times[0], times[0];
    var i := 1;
    while i < |times|
      invariant 1 <= i <= |times|
      invariant sessions + Onwards(start, last, times[i..], gap, tail) == Sessions(prompts, gap, tail)
    {
      var current := times[i];
      assert times[i..][1..] == times[i + 1..];
      if current - last > gap {
        ghost var more := Onwards(current, current, times[i + 1..], gap, tail);
        assert sessions + ([Interval(start, last + tail)] + more) == sessions + [Interval(start, last + tail)] + more;
        sessions := sessions + [Interval(start, last + tail)];
        start := current;
      }
      last := current;
      i := i + 1;
    }
    sessions := sessions + [Interval(start, last + tail)];
  }
}
