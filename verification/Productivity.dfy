/** Interval arithmetic of the productivity report: `union_seconds`, `_split_interval_by_day` and the
    agent-interval part of `aggregate_productivity` (productivity.py:237-256, 275-291, 449-454, 511-554,
    632-650). Time counts microseconds in one zone of fixed offset, the resolution of `datetime`. */
module Productivity {
  import opened OrderedDict

  const DAY := 86_400_000_000

  datatype Interval = Interval(start: int, end: int)

  // ---- the measure ----

  /** The microseconds of one interval: `t` stands for the instant range from `t` to `t + 1`. */
  function Span(iv: Interval): set<int> {
    set t | iv.start <= t < iv.end && Contains(iv, t)
  }

  predicate Contains(iv: Interval, t: int) {
    iv.start <= t < iv.end
  }

  function Covered(ivs: seq<Interval>): set<int> {
    if ivs == [] then {} else Covered(ivs[..|ivs| - 1]) + Span(ivs[|ivs| - 1])
  }

  function Length(iv: Interval): nat {
    if iv.end > iv.start then iv.end - iv.start else 0
  }

  /** Total length, counting overlaps as often as they occur. */
  function Gross(ivs: seq<Interval>): nat {
    if ivs == [] then 0 else Gross(ivs[..|ivs| - 1]) + Length(ivs[|ivs| - 1])
  }

  lemma {:induction false} CoveredIff(ivs: seq<Interval>, t: int)
    ensures t in Covered(ivs) <==> exists iv :: iv in ivs && t in Span(iv)
  {
    if ivs != [] {
      CoveredIff(ivs[..|ivs| - 1], t);
      var last := ivs[|ivs| - 1];
      assert ivs == ivs[..|ivs| - 1] + [last];
      assert last in ivs;
    }
  }

  /** Only the intervals that are not empty matter, and neither their order nor their multiplicity. */
  lemma CoveredDependsOnMembers(a: seq<Interval>, b: seq<Interval>)
    requires forall iv :: Length(iv) > 0 ==> (iv in a <==> iv in b)
    ensures Covered(a) == Covered(b)
  {
    forall t ensures t in Covered(a) <==> t in Covered(b) {
      CoveredIff(a, t);
      CoveredIff(b, t);
      assert forall iv :: t in Span(iv) ==> Length(iv) > 0;
    }
  }

  lemma {:induction false} SpanSize(iv: Interval)
    ensures |Span(iv)| == Length(iv)
    decreases Length(iv)
  {
    if iv.start < iv.end {
      var less := Interval(iv.start, iv.end - 1);
      SpanSize(less);
      assert Span(iv) == Span(less) + {iv.end - 1};
    } else {
      assert Span(iv) == {};
    }
  }

  lemma {:induction false} UnionSize(a: set<int>, b: set<int>)
    ensures |a + b| == |a| + |b - a| <= |a| + |b|
  {
    assert a + b == a + (b - a) && a !! (b - a);
    assert (b - a) + (b * a) == b && (b - a) !! (b * a);
  }

  /** Overlap is never counted twice: the union is at most the gross time. */
  lemma {:induction false} NetAtMostGross(ivs: seq<Interval>)
    ensures |Covered(ivs)| <= Gross(ivs)
  {
    if ivs != [] {
      var last := ivs[|ivs| - 1];
      NetAtMostGross(ivs[..|ivs| - 1]);
      SpanSize(last);
      UnionSize(Covered(ivs[..|ivs| - 1]), Span(last));
    }
  }

  lemma {:induction false} CoveredConcat(a: seq<Interval>, b: seq<Interval>)
    ensures Covered(a + b) == Covered(a) + Covered(b)
  {
    if b == [] {
      assert a + b == a;
    } else {
      var n := |b| - 1;
      assert (a + b)[..|a + b| - 1] == a + b[..n] && (a + b)[|a + b| - 1] == b[n];
      CoveredConcat(a, b[..n]);
    }
  }

  // ---- union_seconds ----

  predicate NotAfter(a: Interval, b: Interval) {
    a.start < b.start || (a.start == b.start && a.end <= b.end)
  }

  function Insert(iv: Interval, ivs: seq<Interval>): seq<Interval> {
    if ivs == [] || NotAfter(iv, ivs[0]) then [iv] + ivs else [ivs[0]] + Insert(iv, ivs[1..])
  }

  /** `sorted` of the pairs whose end is after their start. */
  function Normalized(ivs: seq<Interval>): seq<Interval> {
    if ivs == [] then []
    else if ivs[0].end > ivs[0].start then Insert(ivs[0], Normalized(ivs[1..]))
    else Normalized(ivs[1..])
  }

  ghost predicate ByStart(ivs: seq<Interval>) {
    forall i, j :: 0 <= i < j < |ivs| ==> ivs[i].start <= ivs[j].start
  }

  lemma {:induction false} InsertMembers(iv: Interval, ivs: seq<Interval>, x: Interval)
    ensures x in Insert(iv, ivs) <==> x == iv || x in ivs
  {
    if ivs != [] {
      InsertMembers(iv, ivs[1..], x);
      assert ivs == [ivs[0]] + ivs[1..];
    }
  }

  lemma {:induction false} InsertByStart(iv: Interval, ivs: seq<Interval>)
    requires ByStart(ivs)
    ensures ByStart(Insert(iv, ivs))
  {
    if ivs != [] && !NotAfter(iv, ivs[0]) {
      InsertByStart(iv, ivs[1..]);
      var rest := Insert(iv, ivs[1..]);
      forall j | 0 <= j < |rest| ensures ivs[0].start <= rest[j].start {
        InsertMembers(iv, ivs[1..], rest[j]);
      }
    }
  }

  lemma {:induction false} NormalizedSorts(ivs: seq<Interval>)
    ensures ByStart(Normalized(ivs))
    ensures forall iv :: iv in Normalized(ivs) <==> iv in ivs && Length(iv) > 0
  {
    if ivs != [] {
      NormalizedSorts(ivs[1..]);
      assert ivs == [ivs[0]] + ivs[1..];
      if ivs[0].end > ivs[0].start {
        InsertByStart(ivs[0], Normalized(ivs[1..]));
        forall iv ensures iv in Normalized(ivs) <==> iv in ivs && Length(iv) > 0 {
          InsertMembers(ivs[0], Normalized(ivs[1..]), iv);
        }
      }
    }
  }

  /** The open block of the sweep: it is covered, nothing covered lies after it, and `total` counts what lies
      before it. */
  ghost predicate Swept(covered: set<int>, block: Interval, total: int) {
    && block.start < block.end
    && Span(block) <= covered
    && (forall t :: t in covered ==> t < block.end)
    && total + (block.end - block.start) == |covered|
  }

  lemma ExtensionIsFresh(covered: set<int>, block: Interval, next: Interval)
    requires Span(block) <= covered && (forall t :: t in covered ==> t < block.end)
    requires block.start <= next.start <= block.end < next.end
    ensures var added := Span(Interval(block.end, next.end));
      && covered + Span(next) == covered + added && added - covered == added
      && Span(Interval(block.start, next.end)) <= covered + added
  {
    assert forall t :: block.start <= t < block.end ==> t in Span(block);
  }

  lemma SweepExtends(covered: set<int>, block: Interval, total: int, next: Interval)
    requires Swept(covered, block, total) && block.start <= next.start <= block.end < next.end
    ensures Swept(covered + Span(next), Interval(block.start, next.end), total)
  {
    var added := Interval(block.end, next.end);
    ExtensionIsFresh(covered, block, next);
    SpanSize(added);
    UnionSize(covered, Span(added));
  }

  lemma SweepAbsorbs(covered: set<int>, block: Interval, total: int, next: Interval)
    requires Swept(covered, block, total) && block.start <= next.start && next.end <= block.end
    ensures Swept(covered + Span(next), block, total)
  {
    assert forall t :: t in Span(next) ==> t in Span(block);
    assert covered + Span(next) == covered;
  }

  lemma SweepRestarts(covered: set<int>, block: Interval, total: int, next: Interval)
    requires Swept(covered, block, total) && block.end < next.start < next.end
    ensures Swept(covered + Span(next), next, total + (block.end - block.start))
  {
    SpanSize(next);
    UnionSize(covered, Span(next));
    assert Span(next) - covered == Span(next);
  }

  /** `union_seconds`: the sorted sweep counts exactly the time covered by at least one interval. */
  method UnionSeconds(intervals: seq<Interval>) returns (total: int)
    ensures total == |Covered(intervals)|
  {
    hide Covered, Swept, Normalized;
    var normalized := Normalized(intervals);
    NormalizedSorts(intervals);
    CoveredDependsOnMembers(intervals, normalized);
    if normalized == [] {
      SizeOfNone(normalized);
      return 0;
    }
    total := 0;
    var current := normalized[0];
    assert current in normalized;
    SweepStarts(normalized);
    var i := 1;
    while i < |normalized|
      invariant 1 <= i <= |normalized|
      invariant current.start <= normalized[i - 1].start
      invariant Swept(Covered(normalized[..i]), current, total)
    {
      var next := normalized[i];
      assert next in normalized;
      CoveredNext(normalized, i);
      if next.start <= current.end {
        if next.end > current.end {
          SweepExtends(Covered(normalized[..i]), current, total, next);
          current := Interval(current.start, next.end);
        } else {
          SweepAbsorbs(Covered(normalized[..i]), current, total, next);
        }
      } else {
        SweepRestarts(Covered(normalized[..i]), current, total, next);
        total := total + (current.end - current.start);
        current := next;
      }
      i := i + 1;
    }
    assert normalized[..i] == normalized;
    SweepEnds(Covered(normalized), current, total);
    total := total + (current.end - current.start);
  }

  lemma SizeOfNone(ivs: seq<Interval>)
    requires ivs == []
    ensures |Covered(ivs)| == 0
  {
  }

  lemma SweepStarts(ivs: seq<Interval>)
    requires ivs != [] && ivs[0].start < ivs[0].end
    ensures Swept(Covered(ivs[..1]), ivs[0], 0)
  {
    SpanSize(ivs[0]);
    assert ivs[..1] == [ivs[0]] && [ivs[0]][..0] == [];
    assert Covered(ivs[..1]) == {} + Span(ivs[0]);
  }

  lemma CoveredNext(ivs: seq<Interval>, i: nat)
    requires i < |ivs|
    ensures Covered(ivs[..i + 1]) == Covered(ivs[..i]) + Span(ivs[i])
  {
    assert ivs[..i + 1][..i] == ivs[..i];
  }

  lemma SweepEnds(covered: set<int>, block: Interval, total: int)
    requires Swept(covered, block, total)
    ensures total + (block.end - block.start) == |covered|
  {
  }

  // ---- _split_interval_by_day ----

  datatype Piece = Piece(day: int, start: int, end: int)

  /** The day number; Dafny's division floors for a positive divisor, as `date()` does. */
  function DayOf(t: int): int {
    t / DAY
  }

  function Midnight(t: int): int {
    (DayOf(t) + 1) * DAY
  }

  function Min(a: int, b: int): int {
    if b < a then b else a
  }

  function Split(start: int, end: int): seq<Piece>
    decreases end - start
  {
    if start >= end then []
    else
      var boundary := Min(end, Midnight(start));
      [Piece(DayOf(start), start, boundary)] + Split(boundary, end)
  }

  /** A chain of adjacent nonempty pieces from `start` to `end`, each inside its own day, days increasing. */
  ghost predicate Partition(ps: seq<Piece>, start: int, end: int) {
    if ps == [] then start >= end
    else
      && ps[0].start == start < ps[0].end <= end
      && ps[0].day * DAY <= start && ps[0].end <= (ps[0].day + 1) * DAY
      && (|ps| > 1 ==> ps[0].day < ps[1].day)
      && Partition(ps[1..], ps[0].end, end)
  }

  lemma {:induction false} SplitPartitions(start: int, end: int)
    ensures Partition(Split(start, end), start, end)
    decreases end - start
  {
    if start < end {
      var boundary := Min(end, Midnight(start));
      SplitPartitions(boundary, end);
      assert Split(start, end)[1..] == Split(boundary, end);
    }
  }

  lemma {:induction false} PartitionIsSplit(start: int, end: int, ps: seq<Piece>)
    requires Partition(ps, start, end)
    ensures ps == Split(start, end)
    decreases |ps|
  {
    if ps != [] {
      PartitionIsSplit(ps[0].end, end, ps[1..]);
      SameDay(ps[0].day, start);
      if |ps| > 1 {
        assert ps[1..][0] == ps[1];
        LaterDayIsPast(ps[0].day, ps[1]);
      }
      assert ps == [ps[0]] + ps[1..];
    }
  }

  /** The split is the only way to cut the interval into nonempty adjacent pieces, one for each day it meets. */
  lemma SplitIsThePartition(start: int, end: int, ps: seq<Piece>)
    ensures Partition(ps, start, end) <==> ps == Split(start, end)
  {
    SplitPartitions(start, end);
    if Partition(ps, start, end) {
      PartitionIsSplit(start, end, ps);
    }
  }

  lemma SameDay(day: int, t: int)
    requires day * DAY <= t < (day + 1) * DAY
    ensures DayOf(t) == day
  {
  }

  lemma LaterDayIsPast(day: int, next: Piece)
    requires next.start <= (day + 1) * DAY && day < next.day && next.day * DAY <= next.start
    ensures next.start == (day + 1) * DAY
  {
    assert (day + 1) * DAY <= next.day * DAY;
  }

  /** `_split_interval_by_day`: terminates and returns the split. */
  method SplitByDay(start: int, end: int) returns (rows: seq<Piece>)
    ensures rows == Split(start, end)
  {
    rows := [];
    var cursor := start;
    while cursor < end
      invariant rows + Split(cursor, end) == Split(start, end)
      decreases end - cursor
    {
      var boundary := Min(end, Midnight(cursor));
      ghost var rest := Split(boundary, end);
      var piece := Piece(DayOf(cursor), cursor, boundary);
      assert Split(cursor, end) == [piece] + rest;
      assert cursor < boundary;
      hide Split, DayOf, Midnight, Min;
      assert rows + ([piece] + rest) == (rows + [piece]) + rest;
      rows := rows + [piece];
      cursor := boundary;
    }
  }

  // ---- the report ----

  function Spans(ps: seq<Piece>): seq<Interval> {
    if ps == [] then [] else Spans(ps[..|ps| - 1]) + [Interval(ps[|ps| - 1].start, ps[|ps| - 1].end)]
  }

  /** The intervals filed under one day. */
  function OnDay(ps: seq<Piece>, day: int): seq<Interval> {
    if ps == [] then []
    else
      var last := ps[|ps| - 1];
      OnDay(ps[..|ps| - 1], day) + if last.day == day then [Interval(last.start, last.end)] else []
  }

  function InRange(ps: seq<Piece>, lo: int, hi: int): seq<Piece> {
    if ps == [] then []
    else (if lo <= ps[0].day <= hi then [ps[0]] else []) + InRange(ps[1..], lo, hi)
  }

  /** A turn with its parsed timestamps; a timestamp that does not parse is absent. */
  datatype Turn = Turn(start: Option<int>, end: Option<int>)

  predicate Counts(turn: Turn) {
    turn.start.Some? && turn.end.Some? && turn.end.value > turn.start.value
  }

  function ValidPieces(turn: Turn, lo: int, hi: int): seq<Piece> {
    if Counts(turn) then InRange(Split(turn.start.value, turn.end.value), lo, hi) else []
  }

  function AllPieces(turns: seq<Turn>, lo: int, hi: int): seq<Piece> {
    if turns == [] then [] else AllPieces(turns[..|turns| - 1], lo, hi) + ValidPieces(turns[|turns| - 1], lo, hi)
  }

  datatype Row = Row(gross: int, net: int, parallel: int)

  function RowOf(gross: int, net: int): Row {
    Row(gross, net, if gross > net then gross - net else 0)
  }

  /** Row `k` of `daily` is that of day `lo + k`. */
  datatype Report = Report(daily: seq<Row>, summary: Row)

  function Sum(rows: seq<Row>): Row {
    if rows == [] then Row(0, 0, 0)
    else
      var before, last := Sum(rows[..|rows| - 1]), rows[|rows| - 1];
      Row(before.gross + last.gross, before.net + last.net, before.parallel + last.parallel)
  }

  function Daily(ps: seq<Piece>, lo: int, n: nat): (rows: seq<Row>)
    ensures |rows| == n
    ensures forall k :: 0 <= k < n ==> rows[k] == RowOf(Gross(OnDay(ps, lo + k)), |Covered(OnDay(ps, lo + k))|)
  {
    if n == 0 then []
    else Daily(ps, lo, n - 1) + [RowOf(Gross(OnDay(ps, lo + n - 1)), |Covered(OnDay(ps, lo + n - 1))|)]
  }

  function ReportOf(turns: seq<Turn>, lo: int, hi: int): Report
    requires lo <= hi
  {
    var ps := AllPieces(turns, lo, hi);
    var daily := Daily(ps, lo, hi - lo + 1);
    Report(daily, RowOf(Sum(daily).gross, |Covered(Spans(ps))|))
  }

  lemma {:induction false} SpansConcat(a: seq<Piece>, b: seq<Piece>)
    ensures Spans(a + b) == Spans(a) + Spans(b)
  {
    if b == [] {
      assert a + b == a;
    } else {
      var n := |b| - 1;
      assert (a + b)[..|a + b| - 1] == a + b[..n] && (a + b)[|a + b| - 1] == b[n];
      SpansConcat(a, b[..n]);
    }
  }

  lemma SpansOne(p: Piece)
    ensures Covered(Spans([p])) == Span(Interval(p.start, p.end))
  {
    assert Spans([p][..0]) == [];
    var one := Spans([p]);
    assert one == [Interval(p.start, p.end)];
    assert Covered(one[..0]) == {};
  }

  /** The pieces of one turn cover the turn, as far as the requested days reach. */
  lemma {:induction false} SplitCovers(start: int, end: int, lo: int, hi: int, t: int)
    ensures t in Covered(Spans(InRange(Split(start, end), lo, hi))) <==> start <= t < end && lo <= DayOf(t) <= hi
    decreases end - start
  {
    hide Covered;
    if start >= end {
      SizeOfNone(Spans([]));
    } else {
      var boundary := Min(end, Midnight(start));
      var first := Piece(DayOf(start), start, boundary);
      var split := Split(start, end);
      assert split[1..] == Split(boundary, end);
      var rest := InRange(Split(boundary, end), lo, hi);
      SplitCovers(boundary, end, lo, hi, t);
      assert start <= t < boundary ==> DayOf(t) == DayOf(start);
      SpansOne(first);
      SpansConcat([first], rest);
      CoveredConcat(Spans([first]), Spans(rest));
      assert InRange(split, lo, hi) == if lo <= first.day <= hi then [first] + rest else rest;
    }
  }

  /** The instant `t` falls in some turn that counts. */
  ghost predicate Busy(turns: seq<Turn>, t: int) {
    exists turn :: turn in turns && Counts(turn) && turn.start.value <= t < turn.end.value
  }

  /** The summary's net time is the measure of a set that mentions no pieces: the instants of the requested days
      at which at least one turn was running. */
  lemma {:induction false} NetIsBusyTime(turns: seq<Turn>, lo: int, hi: int, t: int)
    ensures t in Covered(Spans(AllPieces(turns, lo, hi))) <==> Busy(turns, t) && lo <= DayOf(t) <= hi
  {
    hide Covered, Split, DayOf;
    if turns == [] {
      SizeOfNone(Spans([]));
    } else {
      var n := |turns| - 1;
      var turn, before := turns[n], turns[..n];
      NetIsBusyTime(before, lo, hi, t);
      SpansConcat(AllPieces(before, lo, hi), ValidPieces(turn, lo, hi));
      CoveredConcat(Spans(AllPieces(before, lo, hi)), Spans(ValidPieces(turn, lo, hi)));
      if Counts(turn) {
        SplitCovers(turn.start.value, turn.end.value, lo, hi, t);
      } else {
        SizeOfNone(Spans([]));
      }
      assert turns == before + [turn];
      assert turn in turns;
    }
  }

  ghost predicate Filed(p: Piece, lo: int, hi: int) {
    lo <= p.day <= hi && p.day * DAY <= p.start < p.end <= (p.day + 1) * DAY
  }

  ghost predicate AllFiled(ps: seq<Piece>, lo: int, hi: int) {
    forall p :: p in ps ==> Filed(p, lo, hi)
  }

  lemma {:induction false} SplitFiled(start: int, end: int, lo: int, hi: int)
    ensures AllFiled(InRange(Split(start, end), lo, hi), lo, hi)
    decreases end - start
  {
    if start < end {
      var split := Split(start, end);
      SplitFiled(Min(end, Midnight(start)), end, lo, hi);
      assert split[1..] == Split(Min(end, Midnight(start)), end);
    }
  }

  lemma {:induction false} PiecesFiled(turns: seq<Turn>, lo: int, hi: int)
    ensures AllFiled(AllPieces(turns, lo, hi), lo, hi)
  {
    if turns != [] {
      var n := |turns| - 1;
      PiecesFiled(turns[..n], lo, hi);
      if Counts(turns[n]) {
        SplitFiled(turns[n].start.value, turns[n].end.value, lo, hi);
      }
    }
  }

  ghost function DayPart(instants: set<int>, day: int): set<int> {
    set t | t in instants && DayOf(t) == day
  }

  /** What is filed under a day covers that day's part of the whole. */
  lemma {:induction false} DayCovers(ps: seq<Piece>, lo: int, hi: int, day: int)
    requires AllFiled(ps, lo, hi)
    ensures Covered(OnDay(ps, day)) == DayPart(Covered(Spans(ps)), day)
    ensures forall t :: t in Covered(Spans(ps)) ==> lo <= DayOf(t) <= hi
  {
    hide Covered;
    if ps == [] {
      SizeOfNone(Spans([]));
    } else {
      var n := |ps| - 1;
      var last, before := ps[n], ps[..n];
      assert Filed(last, lo, hi);
      forall p | p in before ensures Filed(p, lo, hi) {
        assert p in ps;
      }
      DayCovers(before, lo, hi, day);
      SpansOne(last);
      assert Spans([last]) == [Interval(last.start, last.end)] by { assert Spans([last][..0]) == []; }
      CoveredConcat(Spans(before), Spans([last]));
      CoveredConcat(OnDay(before, day), Spans([last]));
      forall t | t in Span(Interval(last.start, last.end)) ensures DayOf(t) == last.day {
        SameDay(last.day, t);
      }
      if last.day == day {
        assert OnDay(ps, day) == OnDay(before, day) + Spans([last]);
      } else {
        assert OnDay(ps, day) == OnDay(before, day);
      }
    }
  }

  lemma OtherDays(instants: set<int>, last: int)
    ensures var others := instants - DayPart(instants, last);
      && (forall day :: day != last ==> DayPart(others, day) == DayPart(instants, day))
      && |others| + |DayPart(instants, last)| == |instants|
  {
    hide DayOf;
    var part := DayPart(instants, last);
    UnionSize(instants - part, part);
    assert (instants - part) + part == instants && part - (instants - part) == part;
  }

  lemma InOtherDay(instants: set<int>, last: int)
    ensures forall t :: t in instants - DayPart(instants, last) ==> DayOf(t) != last
  {
    hide DayOf;
  }

  lemma {:induction false} NetsAddUp(ps: seq<Piece>, lo: int, n: nat, instants: set<int>)
    requires forall day :: lo <= day < lo + n ==> Covered(OnDay(ps, day)) == DayPart(instants, day)
    requires forall t :: t in instants ==> lo <= DayOf(t) < lo + n
    ensures Sum(Daily(ps, lo, n)).net == |instants|
  {
    hide Covered, OnDay, DayOf, Daily, Sum, DayPart;
    LastDay(ps, lo, n);
    if n == 0 {
      forall t ensures t !in instants {
      }
      assert instants == {};
    } else {
      var others := instants - DayPart(instants, lo + n - 1);
      OtherDays(instants, lo + n - 1);
      InOtherDay(instants, lo + n - 1);
      NetsAddUp(ps, lo, n - 1, others);
    }
  }

  lemma LastDay(ps: seq<Piece>, lo: int, n: nat)
    ensures Sum(Daily(ps, lo, n)).gross
            == if n == 0 then 0 else Sum(Daily(ps, lo, n - 1)).gross + Gross(OnDay(ps, lo + n - 1))
    ensures Sum(Daily(ps, lo, n)).net
            == if n == 0 then 0 else Sum(Daily(ps, lo, n - 1)).net + |Covered(OnDay(ps, lo + n - 1))|
  {
    if n > 0 {
      assert Daily(ps, lo, n)[..n - 1] == Daily(ps, lo, n - 1);
    }
  }

  lemma {:induction false} GrossStep(ps: seq<Piece>, p: Piece, lo: int, n: nat)
    ensures Sum(Daily(ps + [p], lo, n)).gross
            == Sum(Daily(ps, lo, n)).gross
               + if lo <= p.day < lo + n then Length(Interval(p.start, p.end)) else 0
  {
    hide *;
    LastDay(ps, lo, n);
    LastDay(ps + [p], lo, n);
    if n > 0 {
      GrossStep(ps, p, lo, n - 1);
      DayGrossStep(ps, p, lo + n - 1);
    }
  }

  lemma DayGrossStep(ps: seq<Piece>, p: Piece, day: int)
    ensures Gross(OnDay(ps + [p], day))
            == Gross(OnDay(ps, day)) + if p.day == day then Length(Interval(p.start, p.end)) else 0
  {
    assert (ps + [p])[..|ps|] == ps;
    var iv := Interval(p.start, p.end);
    if p.day == day {
      var ivs := OnDay(ps, day) + [iv];
      assert OnDay(ps + [p], day) == ivs && ivs[..|ivs| - 1] == OnDay(ps, day);
    } else {
      assert OnDay(ps + [p], day) == OnDay(ps, day) + [] == OnDay(ps, day);
    }
  }

  lemma {:induction false} GrossAddsUp(ps: seq<Piece>, lo: int, n: nat)
    requires AllFiled(ps, lo, lo + n - 1)
    ensures Sum(Daily(ps, lo, n)).gross == Gross(Spans(ps))
    decreases |ps|
  {
    if ps == [] {
      NothingOnNoPieces(lo, n);
    } else {
      var m := |ps| - 1;
      assert ps[m] in ps && Filed(ps[m], lo, lo + n - 1);
      assert ps == ps[..m] + [ps[m]];
      GrossAddsUp(ps[..m], lo, n);
      GrossStep(ps[..m], ps[m], lo, n);
      assert Spans(ps)[..m] == Spans(ps[..m]) by { SpansLength(ps[..m]); }
      SpansLength(ps);
    }
  }

  lemma {:induction false} SpansLength(ps: seq<Piece>)
    ensures |Spans(ps)| == |ps|
  {
    if ps != [] {
      SpansLength(ps[..|ps| - 1]);
    }
  }

  lemma {:induction false} NothingOnNoPieces(lo: int, n: nat)
    ensures Sum(Daily([], lo, n)).gross == 0
  {
    if n > 0 {
      NothingOnNoPieces(lo, n - 1);
      assert Daily([], lo, n)[..n - 1] == Daily([], lo, n - 1);
    }
  }

  lemma {:induction false} ParallelAddsUp(rows: seq<Row>)
    requires forall k :: 0 <= k < |rows| ==> rows[k].parallel == rows[k].gross - rows[k].net
    ensures Sum(rows).parallel == Sum(rows).gross - Sum(rows).net
  {
    if rows != [] {
      ParallelAddsUp(rows[..|rows| - 1]);
    }
  }

  lemma DayHolds(ps: seq<Piece>, lo: int, hi: int, day: int)
    requires AllFiled(ps, lo, hi)
    ensures |Covered(OnDay(ps, day))| <= DAY
  {
    hide Covered;
    DayCovers(ps, lo, hi, day);
    var whole := Interval(day * DAY, (day + 1) * DAY);
    SpanSize(whole);
    var part := Covered(OnDay(ps, day));
    forall t | t in part ensures t in Span(whole) {
      assert DayOf(t) == day;
    }
    UnionSize(part, Span(whole));
    assert part + Span(whole) == Span(whole);
  }

  /** The report adds up: summary time is the sum of the days' time, gross, net and parallel; no subtraction
      of net from gross is ever clamped; no day has more net time than a day. */
  lemma ReportAddsUp(turns: seq<Turn>, lo: int, hi: int)
    requires lo <= hi
    ensures var report := ReportOf(turns, lo, hi);
      && report.summary.net == Sum(report.daily).net
      && report.summary.gross == Gross(Spans(AllPieces(turns, lo, hi)))
      && report.summary.parallel == Sum(report.daily).parallel
      && report.summary.parallel == report.summary.gross - report.summary.net
      && forall k :: 0 <= k < |report.daily| ==>
           && report.daily[k].parallel == report.daily[k].gross - report.daily[k].net
           && report.daily[k].net <= DAY
  {
    hide Covered, OnDay, AllPieces, Gross, Spans, Sum, Daily;
    var ps, n := AllPieces(turns, lo, hi), hi - lo + 1;
    var daily := Daily(ps, lo, n);
    PiecesFiled(turns, lo, hi);
    forall day ensures Covered(OnDay(ps, day)) == DayPart(Covered(Spans(ps)), day) {
      DayCovers(ps, lo, hi, day);
    }
    DayCovers(ps, lo, hi, lo);
    NetsAddUp(ps, lo, n, Covered(Spans(ps)));
    GrossAddsUp(ps, lo, n);
    NetAtMostGross(Spans(ps));
    forall k | 0 <= k < n ensures daily[k].parallel == daily[k].gross - daily[k].net && daily[k].net <= DAY {
      NetAtMostGross(OnDay(ps, lo + k));
      DayHolds(ps, lo, hi, lo + k);
    }
    ParallelAddsUp(daily);
  }

  // ---- the loops of aggregate_productivity ----

  lemma OnDayAppend(ps: seq<Piece>, p: Piece, day: int)
    ensures OnDay(ps + [p], day) == OnDay(ps, day) + if p.day == day then [Interval(p.start, p.end)] else []
    ensures Spans(ps + [p]) == Spans(ps) + [Interval(p.start, p.end)]
  {
    assert (ps + [p])[..|ps|] == ps;
  }

  /** The state of the buckets after the pieces `done`. */
  ghost predicate Filled(done: seq<Piece>, lo: int, gross: seq<int>, filed: seq<seq<Interval>>, all: seq<Interval>) {
    && |gross| == |filed|
    && (forall k :: 0 <= k < |gross| ==> gross[k] == Gross(OnDay(done, lo + k)))
    && (forall k :: 0 <= k < |filed| ==> filed[k] == OnDay(done, lo + k))
    && all == Spans(done)
  }

  lemma FilledStep(done: seq<Piece>, p: Piece, lo: int, gross: seq<int>, filed: seq<seq<Interval>>, all: seq<Interval>)
    requires Filled(done, lo, gross, filed, all) && lo <= p.day < lo + |gross|
    requires p.start <= p.end
    ensures var k := p.day - lo;
      Filled(done + [p], lo, gross[k := gross[k] + (p.end - p.start)],
             filed[k := filed[k] + [Interval(p.start, p.end)]], all + [Interval(p.start, p.end)])
  {
    hide Gross, OnDay, Spans;
    OnDayAppend(done, p, lo);
    forall day
      ensures Gross(OnDay(done + [p], day)) == Gross(OnDay(done, day)) + if day == p.day then p.end - p.start else 0
      ensures OnDay(done + [p], day) == OnDay(done, day) + if day == p.day then [Interval(p.start, p.end)] else []
    {
      DayGrossStep(done, p, day);
      OnDayAppend(done, p, day);
    }
    assert forall day :: OnDay(done, day) + [] == OnDay(done, day);
  }

  /** The inner loop, over the pieces of one turn that lie in the range. */
  method FileValid(valid: seq<Piece>, ghost before: seq<Piece>, lo: int, gross0: seq<int>, filed0: seq<seq<Interval>>,
                   all0: seq<Interval>)
    returns (gross: seq<int>, filed: seq<seq<Interval>>, all: seq<Interval>)
    requires AllFiled(valid, lo, lo + |gross0| - 1) && Filled(before, lo, gross0, filed0, all0)
    ensures |gross| == |gross0| && Filled(before + valid, lo, gross, filed, all)
  {
    hide Gross, OnDay, Spans, Filled;
    gross, filed, all := gross0, filed0, all0;
    FilledLengths(before, lo, gross, filed, all);
    assert before + valid[..0] == before;
    for j := 0 to |valid|
      invariant |gross| == |filed| == |gross0|
      invariant Filled(before + valid[..j], lo, gross, filed, all)
    {
      var p := valid[j];
      assert p in valid && Filed(p, lo, lo + |gross0| - 1);
      FilledStep(before + valid[..j], p, lo, gross, filed, all);
      assert before + valid[..j + 1] == before + valid[..j] + [p];
      var k := p.day - lo;
      gross := gross[k := gross[k] + (p.end - p.start)];
      filed := filed[k := filed[k] + [Interval(p.start, p.end)]];
      all := all + [Interval(p.start, p.end)];
    }
    assert valid[..|valid|] == valid;
  }

  lemma FilledLengths(done: seq<Piece>, lo: int, gross: seq<int>, filed: seq<seq<Interval>>, all: seq<Interval>)
    requires Filled(done, lo, gross, filed, all)
    ensures |gross| == |filed|
  {
  }

  /** The first loop: file every piece of every turn that lies in the range. */
  method FilePieces(turns: seq<Turn>, lo: int, hi: int)
    returns (gross: seq<int>, filed: seq<seq<Interval>>, all: seq<Interval>)
    requires lo <= hi
    ensures |gross| == hi - lo + 1 && Filled(AllPieces(turns, lo, hi), lo, gross, filed, all)
  {
    hide Gross, OnDay, Spans, Split, Filled, InRange, AllFiled;
    var n := hi - lo + 1;
    gross, filed, all := seq(n, i => 0), seq(n, i => []), [];
    NothingFiled(lo, gross, filed);
    var i := 0;
    while i < |turns|
      invariant 0 <= i <= |turns| && |gross| == n
      invariant Filled(AllPieces(turns[..i], lo, hi), lo, gross, filed, all)
    {
      ghost var before := AllPieces(turns[..i], lo, hi);
      assert turns[..i + 1][..i] == turns[..i];
      if Counts(turns[i]) {
        var pieces := SplitByDay(turns[i].start.value, turns[i].end.value);
        var valid := InRange(pieces, lo, hi);
        SplitFiled(turns[i].start.value, turns[i].end.value, lo, hi);
        gross, filed, all := FileValid(valid, before, lo, gross, filed, all);
      } else {
        assert before + [] == before;
      }
      i := i + 1;
    }
    assert turns[..i] == turns;
  }

  /** The agent-interval part of `aggregate_productivity`; a range that ends before it starts is an error. */
  method Aggregate(turns: seq<Turn>, lo: int, hi: int) returns (report: Option<Report>)
    ensures report == if hi < lo then None else Some(ReportOf(turns, lo, hi))
  {
    hide Gross, OnDay, Spans, Covered, Sum, AllPieces, Filled;
    if hi < lo {
      return None;
    }
    var gross, filed, all := FilePieces(turns, lo, hi);
    ghost var ps := AllPieces(turns, lo, hi);
    FilledAt(ps, lo, gross, filed, all, 0);
    var daily: seq<Row> := [];
    while |daily| < |gross|
      invariant |daily| <= |gross|
      invariant daily == Daily(ps, lo, |daily|)
    {
      var k := |daily|;
      FilledAt(ps, lo, gross, filed, all, k);
      var net := UnionSeconds(filed[k]);
      daily := daily + [RowOf(gross[k], net)];
    }
    var net := UnionSeconds(all);
    var total := SummaryGross(daily);
    report := Some(Report(daily, RowOf(total, net)));
  }

  /** The summary adds up the rows of the days, except for net and parallel time. */
  method SummaryGross(daily: seq<Row>) returns (total: int)
    ensures total == Sum(daily).gross
  {
    total := 0;
    var k := 0;
    while k < |daily|
      invariant 0 <= k <= |daily| && total == Sum(daily[..k]).gross
    {
      total := total + daily[k].gross;
      assert daily[..k + 1][..k] == daily[..k];
      k := k + 1;
    }
    assert daily[..k] == daily;
  }

  lemma NothingFiled(lo: int, gross: seq<int>, filed: seq<seq<Interval>>)
    requires |gross| == |filed| && forall k :: 0 <= k < |gross| ==> gross[k] == 0 && filed[k] == []
    ensures Filled([], lo, gross, filed, [])
  {
  }

  lemma FilledAt(ps: seq<Piece>, lo: int, gross: seq<int>, filed: seq<seq<Interval>>, all: seq<Interval>, k: nat)
    requires Filled(ps, lo, gross, filed, all) && k < |gross|
    ensures |filed| == |gross| && gross[k] == Gross(OnDay(ps, lo + k)) && filed[k] == OnDay(ps, lo + k)
      && all == Spans(ps)
  {
  }
}
