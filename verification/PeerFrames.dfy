/** Newline-delimited frames between peers: the reader (ccc_peer_inbound.py:21-81) and the printer it is
    paired with (ccc_peer_uds.py:208-224). JSON itself is a parameter: `parse` turns a line into a frame or
    nothing, `spell` is the newline-free spelling of a frame. The socket delivers chunks and then EOF. */
module PeerFrames {
  import opened OrderedDict
  import opened Sequences

  type Bytes = seq<bv8>

  const NEWLINE: bv8 := 10
  const RECEIVE_SIZE := 65536
  const MAX_LINE_BYTES := 1024 * 1024

  predicate IsBlankByte(b: bv8) {
    b == 32 || 9 <= b <= 13
  }

  /** `not buf.strip()`. */
  predicate BlankLine(s: Bytes) {
    forall i :: 0 <= i < |s| ==> IsBlankByte(s[i])
  }

  /** Index of the first newline, or the length. */
  function LineEnd(s: Bytes): (i: nat)
    ensures i <= |s| && (i < |s| ==> s[i] == NEWLINE) && forall k :: 0 <= k < i ==> s[k] != NEWLINE
  {
    if s == [] || s[0] == NEWLINE then 0 else 1 + LineEnd(s[1..])
  }

  predicate HasLine(s: Bytes) {
    LineEnd(s) < |s|
  }

  function Emit<F>(o: Option<F>): seq<F> {
    match o case None => [] case Some(f) => [f]
  }

  function Flush<F>(buf: Bytes, parse: Bytes -> Option<F>): seq<F> {
    if BlankLine(buf) then [] else Emit(parse(buf))
  }

  // ---- the stream read at once ----

  /** Parse each line, stop at the first oversize line, include a final unterminated line. */
  function Frames<F>(s: Bytes, maxLine: nat, parse: Bytes -> Option<F>): seq<F>
    decreases |s|
  {
    var i := LineEnd(s);
    if i > maxLine then []
    else if i == |s| then Flush(s, parse)
    else Emit(parse(s[..i])) + Frames(s[i + 1..], maxLine, parse)
  }

  // ---- the stream read in chunks ----

  /** What splitting the complete lines off a buffer gives; `closed` when a line was oversize. */
  datatype Split<F> = Split(frames: seq<F>, rest: Bytes, closed: bool)

  function Drain<F>(buf: Bytes, maxLine: nat, parse: Bytes -> Option<F>): Split<F>
    decreases |buf|
  {
    var i := LineEnd(buf);
    if i == |buf| then Split([], buf, false)
    else if i > maxLine then Split([], buf, true)
    else
      var d := Drain(buf[i + 1..], maxLine, parse);
      d.(frames := Emit(parse(buf[..i])) + d.frames)
  }

  /** The reader from a buffer and the chunks still to come. */
  function Receive<F>(buf: Bytes, chunks: seq<Bytes>, maxLine: nat, parse: Bytes -> Option<F>): seq<F>
    decreases |chunks|
  {
    if chunks == [] then Flush(buf, parse)
    else
      var got := buf + chunks[0];
      if |got| > maxLine && !HasLine(got) then []
      else
        var d := Drain(got, maxLine, parse);
        if d.closed then d.frames else d.frames + Receive(d.rest, chunks[1..], maxLine, parse)
  }

  // ---- chunking does not matter ----

  lemma {:induction false} LineEndAppend(s: Bytes, more: Bytes)
    ensures HasLine(s) ==> LineEnd(s + more) == LineEnd(s)
    ensures !HasLine(s) ==> LineEnd(s + more) == |s| + LineEnd(more)
  {
    if s == [] {
      assert s + more == more;
    } else if s[0] != NEWLINE {
      assert (s + more)[1..] == s[1..] + more;
      LineEndAppend(s[1..], more);
    }
  }

  lemma {:induction false} DrainUnfolds<F>(buf: Bytes, maxLine: nat, parse: Bytes -> Option<F>)
    ensures var i := LineEnd(buf);
      Drain(buf, maxLine, parse)
      == if i == |buf| then Split([], buf, false)
         else if i > maxLine then Split([], buf, true)
         else
           var d := Drain(buf[i + 1..], maxLine, parse);
           d.(frames := Emit(parse(buf[..i])) + d.frames)
  {
    hide LineEnd, Emit;
  }

  lemma {:induction false} FramesUnfolds<F>(s: Bytes, maxLine: nat, parse: Bytes -> Option<F>)
    ensures var i := LineEnd(s);
      Frames(s, maxLine, parse)
      == if i > maxLine then []
         else if i == |s| then Flush(s, parse)
         else Emit(parse(s[..i])) + Frames(s[i + 1..], maxLine, parse)
  {
    hide LineEnd, Emit, Flush;
  }

  /** Complete lines read early give the frames they would give in the whole stream. */
  lemma {:induction false} DrainAhead<F>(buf: Bytes, more: Bytes, maxLine: nat, parse: Bytes -> Option<F>)
    ensures var d := Drain(buf, maxLine, parse);
      Frames(buf + more, maxLine, parse)
        == (if d.closed then d.frames else d.frames + Frames(d.rest + more, maxLine, parse))
    decreases |buf|
  {
    hide Frames, Drain, LineEnd, Emit, Flush;
    var i := LineEnd(buf);
    var all := buf + more;
    LineEndAppend(buf, more);
    DrainUnfolds(buf, maxLine, parse);
    FramesUnfolds(all, maxLine, parse);
    if i < |buf| && i <= maxLine {
      var tail := buf[i + 1..];
      CutBehind(buf, more, i);
      DrainAhead(tail, more, maxLine, parse);
      var d := Drain(tail, maxLine, parse);
      var first := Emit(parse(buf[..i]));
      assert Frames(all, maxLine, parse) == first + Frames(tail + more, maxLine, parse);
      if !d.closed {
        Associate(first, d.frames, Frames(d.rest + more, maxLine, parse));
      }
    } else {
      NothingFirst(Frames(all, maxLine, parse));
    }
  }

  lemma CutBehind(buf: Bytes, more: Bytes, i: nat)
    requires i < |buf|
    ensures (buf + more)[..i] == buf[..i] && (buf + more)[i + 1..] == buf[i + 1..] + more
  {
  }

  lemma NothingFirst<T>(s: seq<T>)
    ensures [] + s == s
  {
  }

  /** What is left has no complete line, and is the end of the buffer. */
  lemma {:induction false} RestIsTail<F>(buf: Bytes, maxLine: nat, parse: Bytes -> Option<F>)
    requires !Drain(buf, maxLine, parse).closed
    ensures var rest := Drain(buf, maxLine, parse).rest; !HasLine(rest) && |rest| <= |buf| - if HasLine(buf)
      then LineEnd(buf) + 1 else 0
    decreases |buf|
  {
    hide Drain, LineEnd;
    var i := LineEnd(buf);
    DrainUnfolds(buf, maxLine, parse);
    if i < |buf| {
      RestIsTail(buf[i + 1..], maxLine, parse);
    }
  }

  /** What is left after the lines of a chunk lies within the chunk. */
  lemma RestInChunk<F>(buf: Bytes, chunk: Bytes, maxLine: nat, parse: Bytes -> Option<F>)
    requires !HasLine(buf) && !Drain(buf + chunk, maxLine, parse).closed
    ensures var rest := Drain(buf + chunk, maxLine, parse).rest;
      !HasLine(rest) && (HasLine(buf + chunk) ==> |rest| < |chunk|) && |rest| <= |buf + chunk|
  {
    hide Drain;
    LineEndAppend(buf, chunk);
    RestIsTail(buf + chunk, maxLine, parse);
  }

  lemma Oversize<F>(buf: Bytes, more: Bytes, maxLine: nat, parse: Bytes -> Option<F>)
    requires |buf| > maxLine && !HasLine(buf)
    ensures Frames(buf + more, maxLine, parse) == []
  {
    LineEndAppend(buf, more);
  }

  lemma {:induction false} ReceiveIsFrames<F>(buf: Bytes, chunks: seq<Bytes>, maxLine: nat, parse: Bytes -> Option<F>)
    requires !HasLine(buf) && |buf| <= maxLine && forall i :: 0 <= i < |chunks| ==> |chunks[i]| <= maxLine + 1
    ensures Receive(buf, chunks, maxLine, parse) == Frames(buf + Concat(chunks), maxLine, parse)
    decreases |chunks|
  {
    if chunks == [] {
      assert buf + [] == buf;
    } else {
      var got, rest := buf + chunks[0], Concat(chunks[1..]);
      assert buf + Concat(chunks) == got + rest;
      if |got| > maxLine && !HasLine(got) {
        Oversize(got, rest, maxLine, parse);
      } else {
        DrainAhead(got, rest, maxLine, parse);
        var d := Drain(got, maxLine, parse);
        if !d.closed {
          RestInChunk(buf, chunks[0], maxLine, parse);
          ReceiveIsFrames(d.rest, chunks[1..], maxLine, parse);
        }
      }
    }
  }

  /** What `recv` can deliver before the end of the stream. */
  ghost predicate Delivered(chunks: seq<Bytes>) {
    forall i :: 0 <= i < |chunks| ==> 1 <= |chunks[i]| <= RECEIVE_SIZE
  }

  /** With a line cap of at least one less than the receive size the frames are those of the whole stream. */
  lemma ChunkingIsIrrelevant<F>(chunks: seq<Bytes>, maxLine: nat, parse: Bytes -> Option<F>)
    requires maxLine >= RECEIVE_SIZE - 1 && Delivered(chunks)
    ensures Receive([], chunks, maxLine, parse) == Frames(Concat(chunks), maxLine, parse)
  {
    ReceiveIsFrames([], chunks, maxLine, parse);
    assert [] + Concat(chunks) == Concat(chunks);
  }

  /** With a cap below the chunk size it does matter: an overlong last line behind a newline in one chunk is
      parsed, while the same bytes in two chunks are refused. */
  lemma SmallCapDependsOnChunks<F>(line: Bytes, maxLine: nat, parse: Bytes -> Option<F>)
    requires |line| > maxLine && !HasLine(line) && !BlankLine(line) && parse(line).Some? && parse([]).None?
    ensures Concat([[NEWLINE] + line]) == Concat([[NEWLINE], line])
    ensures Receive([], [[NEWLINE] + line], maxLine, parse) == [parse(line).value]
    ensures Receive([], [[NEWLINE], line], maxLine, parse) == []
  {
    hide *;
    var got := [NEWLINE] + line;
    assert [got] == [got] + [] && [line] == [line] + [] && [[NEWLINE], line] == [[NEWLINE]] + [line];
    ConcatFirst(got, []);
    ConcatFirst([NEWLINE], [line]);
    ConcatFirst(line, []);
    NothingMore();
    assert got + [] == got && line + [] == line && [NEWLINE] + [] == [NEWLINE];
    FirstLineBlank(line, maxLine, parse);
    FirstLineBlank([], maxLine, parse);
    NoLineToDrain(line, maxLine, parse);
    NoLineToDrain([], maxLine, parse);
    ReceiveUnfolds([], got, [], maxLine, parse);
    ReceiveUnfolds([], [NEWLINE], [line], maxLine, parse);
    ReceiveUnfolds([], line, [], maxLine, parse);
    LastLine(line, maxLine, parse);
  }

  /** Two deliveries of the same bytes always give the same frames. */
  ghost predicate ChunksDoNotMatter(maxLine: nat) {
    forall parse: Bytes -> Option<Frame>, a, b :: Delivered(a) && Delivered(b) && Concat(a) == Concat(b) ==>
      Receive([], a, maxLine, parse) == Receive([], b, maxLine, parse)
  }

  /** The frames depend only on the bytes exactly when the line cap is at least one less than the receive size. */
  lemma ChunkingIsIrrelevantIff(maxLine: nat)
    ensures ChunksDoNotMatter(maxLine) <==> maxLine >= RECEIVE_SIZE - 1
  {
    hide Receive, Frames, Concat, HasLine, BlankLine;
    if maxLine >= RECEIVE_SIZE - 1 {
      forall parse: Bytes -> Option<Frame>, a, b | Delivered(a) && Delivered(b) && Concat(a) == Concat(b)
        ensures Receive([], a, maxLine, parse) == Receive([], b, maxLine, parse)
      {
        ChunkingIsIrrelevant(a, maxLine, parse);
        ChunkingIsIrrelevant(b, maxLine, parse);
      }
    } else {
      var line: Bytes := seq(maxLine + 1, i => 65);
      var parse := (b: Bytes) => if b == line then Some(Auth("")) else None;
      NoNewlineIn(line);
      SmallCapDependsOnChunks(line, maxLine, parse);
      assert Delivered([[NEWLINE] + line]) && Delivered([[NEWLINE], line]);
    }
  }

  lemma {:induction false} NoNewlineIn(line: Bytes)
    requires line != [] && forall i :: 0 <= i < |line| ==> line[i] == 65
    ensures !HasLine(line) && !BlankLine(line)
  {
    assert !IsBlankByte(line[0]);
  }

  lemma NothingMore()
    ensures Concat<bv8>([]) == [] && !HasLine([])
  {
  }

  lemma NoLineToDrain<F>(buf: Bytes, maxLine: nat, parse: Bytes -> Option<F>)
    requires !HasLine(buf)
    ensures Drain(buf, maxLine, parse) == Split([], buf, false)
  {
  }

  lemma LastLine<F>(line: Bytes, maxLine: nat, parse: Bytes -> Option<F>)
    requires !BlankLine(line) && parse(line).Some?
    ensures Receive(line, [], maxLine, parse) == [parse(line).value]
  {
  }

  lemma ReceiveUnfolds<F>(buf: Bytes, chunk: Bytes, chunks: seq<Bytes>, maxLine: nat, parse: Bytes -> Option<F>)
    requires buf == []
    ensures Receive(buf, [chunk] + chunks, maxLine, parse)
            == if |chunk| > maxLine && !HasLine(chunk) then []
               else
                 var d := Drain(chunk, maxLine, parse);
                 if d.closed then d.frames else d.frames + Receive(d.rest, chunks, maxLine, parse)
  {
    hide Drain, HasLine;
    assert ([chunk] + chunks)[1..] == chunks && buf + chunk == chunk;
  }

  /** A buffer that starts with a newline, whose empty first line is not a frame. */
  lemma FirstLineBlank<F>(rest: Bytes, maxLine: nat, parse: Bytes -> Option<F>)
    requires parse([]).None?
    ensures HasLine([NEWLINE] + rest) && Drain([NEWLINE] + rest, maxLine, parse) == Drain(rest, maxLine, parse)
    ensures LineEnd([]) == 0
  {
    var got := [NEWLINE] + rest;
    assert got[0] == NEWLINE && LineEnd(got) == 0 && got[1..] == rest && got[..0] == [];
    hide Drain;
    DrainUnfolds(got, maxLine, parse);
    var d := Drain(rest, maxLine, parse);
    assert [] + d.frames == d.frames;
  }

  /** The inner loop of `read_frames`: the complete lines of the buffer. */
  method DrainLines<F>(got: Bytes, maxLine: nat, parse: Bytes -> Option<F>) returns (d: Split<F>)
    ensures d == Drain(got, maxLine, parse)
  {
    hide Drain, LineEnd, Emit;
    var frames: seq<F>, buf := [], got;
    ghost var all := Drain(got, maxLine, parse);
    assert [] + all.frames == all.frames;
    while LineEnd(buf) < |buf|
      invariant var rest := Drain(buf, maxLine, parse); all == rest.(frames := frames + rest.frames)
      decreases |buf|
    {
      DrainUnfolds(buf, maxLine, parse);
      var i := LineEnd(buf);
      if i > maxLine {
        assert frames + [] == frames;
        return Split(frames, buf, true);
      }
      ghost var rest := Drain(buf[i + 1..], maxLine, parse).frames;
      assert frames + (Emit(parse(buf[..i])) + rest) == (frames + Emit(parse(buf[..i]))) + rest;
      frames := frames + Emit(parse(buf[..i]));
      buf := buf[i + 1..];
    }
    DrainUnfolds(buf, maxLine, parse);
    assert frames + [] == frames;
    d := Split(frames, buf, false);
  }

  /** `read_frames`: the loop over received chunks. */
  method ReadFrames<F>(chunks: seq<Bytes>, maxLine: nat, parse: Bytes -> Option<F>) returns (frames: seq<F>)
    ensures frames == Receive([], chunks, maxLine, parse)
  {
    hide Flush, HasLine, Drain;
    var buf: Bytes := [];
    frames := [];
    for c := 0 to |chunks|
      invariant frames + Receive(buf, chunks[c..], maxLine, parse) == Receive([], chunks, maxLine, parse)
    {
      assert chunks[c..][1..] == chunks[c + 1..];
      ghost var before := frames;
      buf := buf + chunks[c];
      if |buf| > maxLine && !HasLine(buf) {
        assert frames + [] == frames;
        return;
      }
      var d := DrainLines(buf, maxLine, parse);
      frames := frames + d.frames;
      if d.closed {
        return;
      }
      buf := d.rest;
      Associate(before, d.frames, Receive(buf, chunks[c + 1..], maxLine, parse));
    }
    frames := frames + Flush(buf, parse);
  }

  // ---- the printer ----

  datatype Frame = Auth(token: string) | User(content: string, msgId: string, priority: string, from: string)

  datatype Message = Message(content: string, token: string, from: string, msgId: string, priority: string)

  function Priority(p: string): string {
    if p in ["now", "next", "later"] then p else "next"
  }

  /** What a reader should see of a message. */
  function FramesOf(m: Message): seq<Frame> {
    (if m.token == "" then [] else [Auth(m.token)]) + [User(m.content, m.msgId, Priority(m.priority), m.from)]
  }

  /** `build_frame_lines`: None stands for its ValueError. Only the user line is measured. */
  method BuildFrameLines(m: Message, spell: Frame -> Bytes) returns (lines: Option<seq<Bytes>>)
    ensures match lines
      case None => |Line(FramesOf(m)[|FramesOf(m)| - 1], spell)| > MAX_LINE_BYTES
      case Some(ls) => ls == Lines(FramesOf(m), spell) && |ls[|ls| - 1]| <= MAX_LINE_BYTES
  {
    var ls: seq<Bytes> := [];
    if m.token != "" {
      ls := ls + [spell(Auth(m.token)) + [NEWLINE]];
    }
    var user := User(m.content, m.msgId, Priority(m.priority), m.from);
    var line := spell(user) + [NEWLINE];
    assert FramesOf(m)[|FramesOf(m)| - 1] == user;
    if |line| > MAX_LINE_BYTES {
      return None;
    }
    ls := ls + [line];
    LinesOf(m, spell);
    return Some(ls);
  }

  function Line(f: Frame, spell: Frame -> Bytes): Bytes {
    spell(f) + [NEWLINE]
  }

  function Lines(fs: seq<Frame>, spell: Frame -> Bytes): (ls: seq<Bytes>)
    ensures |ls| == |fs| && forall i :: 0 <= i < |fs| ==> ls[i] == Line(fs[i], spell)
  {
    if fs == [] then [] else [Line(fs[0], spell)] + Lines(fs[1..], spell)
  }

  lemma LinesOf(m: Message, spell: Frame -> Bytes)
    ensures var user := User(m.content, m.msgId, Priority(m.priority), m.from);
      Lines(FramesOf(m), spell) == (if m.token == "" then [] else [Line(Auth(m.token), spell)]) + [Line(user, spell)]
  {
  }

  /** The frames up to, not including, the first whose line exceeds the reader's cap. */
  function UpToOversize(fs: seq<Frame>, spell: Frame -> Bytes, maxLine: nat): (r: seq<Frame>)
    ensures |r| <= |fs|
  {
    if fs == [] || |spell(fs[0])| > maxLine then [] else [fs[0]] + UpToOversize(fs[1..], spell, maxLine)
  }

  /** `spell` spells a frame without a newline and `parse` reads that spelling back. */
  ghost predicate Paired(spell: Frame -> Bytes, parse: Bytes -> Option<Frame>) {
    forall f :: !HasLine(spell(f)) && parse(spell(f)) == Some(f)
  }

  /** Printed lines read as the frames they spell, up to the first oversize one. */
  lemma {:induction false} LinesRead(fs: seq<Frame>, spell: Frame -> Bytes, parse: Bytes -> Option<Frame>, maxLine: nat)
    requires Paired(spell, parse)
    ensures Frames(Concat(Lines(fs, spell)), maxLine, parse) == UpToOversize(fs, spell, maxLine)
  {
    hide Frames, LineEnd, HasLine, Paired, Concat, Lines, BlankLine;
    ConcatLines(fs, spell);
    if fs == [] {
      NoFrames(maxLine, parse);
    } else {
      var body, rest := spell(fs[0]), Concat(Lines(fs[1..], spell));
      Spelled(fs[0], spell, parse);
      LineThenRest(body, rest);
      LinesRead(fs[1..], spell, parse, maxLine);
      FramesUnfolds(body + ([NEWLINE] + rest), maxLine, parse);
    }
  }

  lemma ConcatLines(fs: seq<Frame>, spell: Frame -> Bytes)
    ensures Concat(Lines(fs, spell))
            == if fs == [] then [] else spell(fs[0]) + ([NEWLINE] + Concat(Lines(fs[1..], spell)))
  {
    if fs != [] {
      ConcatFirst(Line(fs[0], spell), Lines(fs[1..], spell));
      hide Concat;
      Associate(spell(fs[0]), [NEWLINE], Concat(Lines(fs[1..], spell)));
    }
  }

  lemma NoFrames<F>(maxLine: nat, parse: Bytes -> Option<F>)
    ensures Frames([], maxLine, parse) == []
  {
    assert BlankLine([]);
  }

  lemma Spelled(f: Frame, spell: Frame -> Bytes, parse: Bytes -> Option<Frame>)
    requires Paired(spell, parse)
    ensures !HasLine(spell(f)) && parse(spell(f)) == Some(f)
  {
  }

  lemma LineThenRest(body: Bytes, rest: Bytes)
    requires !HasLine(body)
    ensures var s := body + ([NEWLINE] + rest);
      LineEnd(s) == |body| < |s| && s[..|body|] == body && s[|body| + 1..] == rest
  {
    LineEndAppend(body, [NEWLINE] + rest);
    assert LineEnd([NEWLINE] + rest) == 0;
  }

  lemma {:induction false} AllFit(fs: seq<Frame>, spell: Frame -> Bytes, maxLine: nat)
    ensures UpToOversize(fs, spell, maxLine) == fs <==> forall i :: 0 <= i < |fs| ==> |spell(fs[i])| <= maxLine
  {
    if fs != [] {
      AllFit(fs[1..], spell, maxLine);
      assert fs == [fs[0]] + fs[1..];
      if forall i :: 0 <= i < |fs| ==> |spell(fs[i])| <= maxLine {
        assert forall i :: 0 <= i < |fs[1..]| ==> fs[1..][i] == fs[i + 1];
      } else if |spell(fs[0])| <= maxLine {
        var i :| 0 <= i < |fs| && |spell(fs[i])| > maxLine;
        assert fs[1..][i - 1] == fs[i];
      }
    }
  }

  function AllFrames(ms: seq<Message>): seq<Frame> {
    if ms == [] then [] else FramesOf(ms[0]) + AllFrames(ms[1..])
  }

  /** Round trip: however the printed lines are chunked, the reader yields the frames sent up to the first
      line over its cap; it yields all of them exactly when every line fits. The printer checks user lines
      and not token lines, so only an oversize token can break it. */
  lemma RoundTrip(ms: seq<Message>, spell: Frame -> Bytes, parse: Bytes -> Option<Frame>, chunks: seq<Bytes>,
                  maxLine: nat)
    requires Paired(spell, parse)
    requires Concat(chunks) == Concat(Lines(AllFrames(ms), spell))
    requires maxLine >= MAX_LINE_BYTES && Delivered(chunks)
    requires forall i :: 0 <= i < |ms| ==> |Line(FramesOf(ms[i])[|FramesOf(ms[i])| - 1], spell)| <= MAX_LINE_BYTES
    ensures Receive([], chunks, maxLine, parse) == UpToOversize(AllFrames(ms), spell, maxLine)
    ensures Receive([], chunks, maxLine, parse) == AllFrames(ms)
      <==> forall i :: 0 <= i < |ms| && ms[i].token != "" ==> |spell(Auth(ms[i].token))| <= maxLine
  {
    hide Paired, Receive, Frames;
    var fs := AllFrames(ms);
    ChunkingIsIrrelevant(chunks, maxLine, parse);
    LinesRead(fs, spell, parse, maxLine);
    AllFit(fs, spell, maxLine);
    TokensDecide(ms, spell, maxLine);
  }

  lemma {:induction false} FrameOfMessage(ms: seq<Message>, f: Frame)
    ensures f in AllFrames(ms) <==> exists i :: 0 <= i < |ms| && f in FramesOf(ms[i])
  {
    hide FramesOf;
    if ms != [] {
      var rest := ms[1..];
      FrameOfMessage(rest, f);
      if f in AllFrames(rest) {
        var i :| 0 <= i < |rest| && f in FramesOf(rest[i]);
        assert ms[i + 1] == rest[i];
      }
      forall i | 0 <= i < |ms| && f in FramesOf(ms[i]) ensures f in AllFrames(ms) {
        assert i > 0 ==> rest[i - 1] == ms[i];
      }
    }
  }

  lemma FramesOfOne(m: Message, spell: Frame -> Bytes)
    ensures var user := User(m.content, m.msgId, Priority(m.priority), m.from);
      && FramesOf(m)[|FramesOf(m)| - 1] == user && |spell(user)| < |Line(user, spell)|
      && forall f :: f in FramesOf(m) <==> f == user || (m.token != "" && f == Auth(m.token))
  {
  }

  lemma TokensDecide(ms: seq<Message>, spell: Frame -> Bytes, maxLine: nat)
    requires maxLine >= MAX_LINE_BYTES
    requires forall i :: 0 <= i < |ms| ==> |Line(FramesOf(ms[i])[|FramesOf(ms[i])| - 1], spell)| <= MAX_LINE_BYTES
    ensures (forall i :: 0 <= i < |AllFrames(ms)| ==> |spell(AllFrames(ms)[i])| <= maxLine)
      <==> forall i :: 0 <= i < |ms| && ms[i].token != "" ==> |spell(Auth(ms[i].token))| <= maxLine
  {
    hide FramesOf, AllFrames, Line;
    if forall i :: 0 <= i < |AllFrames(ms)| ==> |spell(AllFrames(ms)[i])| <= maxLine {
      forall i | 0 <= i < |ms| && ms[i].token != "" ensures |spell(Auth(ms[i].token))| <= maxLine {
        FramesOfOne(ms[i], spell);
        FrameOfMessage(ms, Auth(ms[i].token));
      }
    }
    if forall i :: 0 <= i < |ms| && ms[i].token != "" ==> |spell(Auth(ms[i].token))| <= maxLine {
      forall j | 0 <= j < |AllFrames(ms)| ensures |spell(AllFrames(ms)[j])| <= maxLine {
        var f := AllFrames(ms)[j];
        FrameOfMessage(ms, f);
        var i :| 0 <= i < |ms| && f in FramesOf(ms[i]);
        FramesOfOne(ms[i], spell);
      }
    }
  }
}
