/** The one-line message header: printed by `header`, recognised by `_parse_line`, inserted by `carry` and
    removed by `strip_header` (sender_envelope.py:29-31, 295-314, 337-371). */
module Envelope {
  import opened OrderedDict
  import opened Sequences

  const COMPACT := "[sender: "
  const LEGACY := "[Message attribution v1: "
  const AFTER_KIND := ") \U{00B7} msg "
  const REPLY := " \U{00B7} reply: ccc send "
  const DOT: char := '\U{00B7}'

  datatype Kind = FromSession | FromService | FromHuman | FromUnknown

  function KindText(k: Kind): string {
    match k case FromSession => "session" case FromService => "service" case FromHuman => "human"
      case FromUnknown => "unknown"
  }

  function KindOf(s: string): Option<Kind> {
    if s == "session" then Some(FromSession)
    else if s == "service" then Some(FromService)
    else if s == "human" then Some(FromHuman)
    else if s == "unknown" then Some(FromUnknown)
    else None
  }

  /** The fields of a valid record that the header shows; "" stands for absent. */
  datatype Attr = Attr(name: string, ident: string, kind: Kind, messageId: string, reply: string)

  // ---- labels ----

  predicate IsMark(c: char) {
    c == '[' || c == ']' || c == '(' || c == ')' || c == DOT
  }

  function Scrub(s: string): string {
    if s == "" then "" else [if IsMark(s[0]) then ' ' else s[0]] + Scrub(s[1..])
  }

  /** `' '.join(s.split())`: `gap` when a space is owed before the next word, `begun` after the first word. */
  function Squeeze(s: string, gap: bool, begun: bool): string {
    if s == "" then ""
    else if IsSpace(s[0]) then Squeeze(s[1..], begun, begun)
    else (if gap then " " else "") + [s[0]] + Squeeze(s[1..], false, true)
  }

  function Label(s: string): string {
    var r := Squeeze(Scrub(s), false, false);
    if |r| <= 60 then r else r[..60]
  }

  function DisplayName(a: Attr): string {
    OrElse(Label(OrElse(a.name, a.ident)), "unnamed")
  }

  function ReplyPart(reply: string): string {
    if reply == "" then "" else REPLY + reply
  }

  function Header(a: Attr): string {
    COMPACT + DisplayName(a) + " (" + KindText(a.kind) + AFTER_KIND + a.messageId + ReplyPart(Label(a.reply)) + "]"
  }

  // ---- recognising a line ----

  predicate EndsWith(s: string, c: char) {
    s != "" && s[|s| - 1] == c
  }

  function Find(s: string, c: char): (i: nat)
    ensures i <= |s| && (i < |s| ==> s[i] == c) && forall k :: 0 <= k < i ==> s[k] != c
  {
    if s == "" || s[0] == c then 0 else 1 + Find(s[1..], c)
  }

  predicate IsHexDash(c: char) {
    '0' <= c <= '9' || 'a' <= c <= 'f' || 'A' <= c <= 'F' || c == '-'
  }

  function Dashes(s: string): nat {
    if s == "" then 0 else (if s[0] == '-' then 1 else 0) + Dashes(s[1..])
  }

  /** 36 characters of hex digits and dashes, which is all the pattern asks. */
  predicate IdShaped(s: string) {
    |s| == 36 && forall i :: 0 <= i < |s| ==> IsHexDash(s[i])
  }

  /** An id that `uuid.UUID` accepts as well: 32 digits are left without the dashes. The canonical spelling
      of RFC 9562, section 4, is one of these. */
  predicate IsId(s: string) {
    IdShaped(s) && Dashes(s) == 4
  }

  datatype Parsed = Parsed(name: string, kind: Kind, id: string, reply: string)

  /** What follows the name: ` (kind) . msg id[ . reply: ccc send addr]]`, to the end of the line. */
  function ParseRest(name: string, rest: string): Option<Parsed> {
    if !StartsWith(rest, " (") then None
    else
      var close := Find(rest, ')');
      if close < 2 then None
      else
        var kind := KindOf(rest[2..close]);
        if kind.None? || !StartsWith(rest[close..], AFTER_KIND) then None
        else
          var tail := rest[close + |AFTER_KIND|..];
          if |tail| < 37 || !IdShaped(tail[..36]) then None
          else ParseReply(name, kind.value, tail[..36], tail[36..])
  }

  function ParseReply(name: string, kind: Kind, id: string, end: string): Option<Parsed> {
    if end == "]" then Some(Parsed(name, kind, id, ""))
    else if StartsWith(end, REPLY) && |end| > |REPLY| + 1 && Find(end, ']') == |end| - 1
    then Some(Parsed(name, kind, id, end[|REPLY|..|end| - 1]))
    else None
  }

  /** The lazy name group: the shortest nonempty name, without a newline, after which the rest matches. */
  function Search(body: string, n: nat): Option<Parsed>
    requires 1 <= n
    decreases |body| - n
  {
    if n > |body| || body[n - 1] == '\n' then None
    else if ParseRest(body[..n], body[n..]).Some? then ParseRest(body[..n], body[n..])
    else Search(body, n + 1)
  }

  function ParseCompact(line: string): Option<Parsed> {
    if StartsWith(line, COMPACT) && EndsWith(line, ']') then
      var found := Search(line[|COMPACT|..], 1);
      if found.Some? && !IsId(found.value.id) then None else found
    else None
  }

  /** `_parse_line(line) is not None`; `legacy` decides the older full-JSON carrier. */
  predicate IsHeader(line: string, legacy: string -> bool) {
    ParseCompact(line).Some? || (StartsWith(line, LEGACY) && EndsWith(line, ']') && legacy(line))
  }

  // ---- labels are clean ----

  predicate Clean(c: char) {
    !IsMark(c) && (c == ' ' || !IsSpace(c))
  }

  predicate AllClean(s: string) {
    forall i :: 0 <= i < |s| ==> Clean(s[i])
  }

  lemma {:induction false} ScrubClean(s: string)
    ensures forall i :: 0 <= i < |Scrub(s)| ==> !IsMark(Scrub(s)[i])
  {
    if s != "" {
      ScrubClean(s[1..]);
    }
  }

  lemma {:induction false} SqueezeClean(s: string, gap: bool, begun: bool)
    requires forall i :: 0 <= i < |s| ==> !IsMark(s[i])
    ensures AllClean(Squeeze(s, gap, begun))
  {
    hide IsSpace, IsMark;
    if s != "" {
      SqueezeClean(s[1..], begun, begun);
      SqueezeClean(s[1..], false, true);
      SpaceIsClean();
    }
  }

  lemma SpaceIsClean()
    ensures Clean(' ')
  {
  }

  lemma LabelClean(s: string)
    ensures AllClean(Label(s)) && |Label(s)| <= 60
  {
    ScrubClean(s);
    SqueezeClean(Scrub(s), false, false);
  }

  // ---- what a label says ----

  /** White space and the marks a header is made of separate words. */
  predicate Separates(c: char) {
    IsSpace(c) || c in {'[', ']', '(', ')', '\U{00B7}'}
  }

  /** The characters up to the first separator. */
  function Word(s: string): (w: string)
    ensures |w| <= |s|
  {
    if s == "" || Separates(s[0]) then "" else [s[0]] + Word(s[1..])
  }

  function Words(s: string): seq<string>
    decreases |s|
  {
    if s == "" then []
    else if Separates(s[0]) then Words(s[1..])
    else [Word(s)] + Words(s[|Word(s)|..])
  }

  function Spaced(words: seq<string>): string {
    if words == [] then "" else " " + words[0] + Spaced(words[1..])
  }

  function Joined(words: seq<string>): string {
    if words == [] then "" else words[0] + Spaced(words[1..])
  }

  /** A text that starts with a word. */
  lemma {:induction false} WordApart(s: string)
    requires s != "" && !Separates(s[0])
    ensures Word(s) == [s[0]] + Word(s[1..]) && s[|Word(s)|..] == s[1..][|Word(s[1..])|..]
    ensures Spaced(Words(s)) == " " + (Word(s) + Spaced(Words(s[|Word(s)|..])))
    ensures Joined(Words(s)) == Word(s) + Spaced(Words(s[|Word(s)|..]))
  {
    hide Separates;
    var w, rest := Word(s), Words(s[|Word(s)|..]);
    assert Words(s) == [w] + rest && ([w] + rest)[1..] == rest;
    assert " " + w + Spaced(rest) == " " + (w + Spaced(rest));
  }

  lemma {:induction false} SqueezeStep(s: string, gap: bool, begun: bool)
    requires s != ""
    ensures Squeeze(Scrub(s), gap, begun)
      == if Separates(s[0]) then Squeeze(Scrub(s[1..]), begun, begun)
         else (if gap then " " else "") + ([s[0]] + Squeeze(Scrub(s[1..]), false, true))
  {
    var r := Scrub(s);
    assert r[1..] == Scrub(s[1..]);
    assert IsSpace(r[0]) <==> Separates(s[0]);
    var gapText := if gap then " " else "";
    hide *;
    assert gapText + [r[0]] + Squeeze(r[1..], false, true) == gapText + ([r[0]] + Squeeze(r[1..], false, true));
  }

  /** A text that does not start with a word. */
  lemma {:induction false} NoWordFirst(s: string)
    requires s == "" || Separates(s[0])
    ensures Word(s) == "" && s[|Word(s)|..] == s && (s != "" ==> Words(s) == Words(s[1..]))
    ensures s == "" ==> Words(s) == [] && Squeeze(Scrub(s), false, true) == Squeeze(Scrub(s), true, true) == ""
  {
    hide Separates;
  }

  lemma {:induction false} EmptyFirst(s: string)
    ensures "" + s == s
  {
  }

  lemma {:induction false} NoWords()
    ensures Spaced([]) == ""
  {
  }

  lemma {:induction false} SqueezeAfterWord(s: string)
    ensures Squeeze(Scrub(s), false, true) == Word(s) + Spaced(Words(s[|Word(s)|..]))
    ensures Squeeze(Scrub(s), true, true) == Spaced(Words(s))
    decreases |s|
  {
    hide *;
    NoWords();
    EmptyFirst(Spaced(Words(s)));
    if s == "" {
      NoWordFirst(s);
    } else {
      SqueezeAfterWord(s[1..]);
      SqueezeStep(s, false, true);
      SqueezeStep(s, true, true);
      if Separates(s[0]) {
        NoWordFirst(s);
      } else {
        WordApart(s);
        var rest := Spaced(Words(s[|Word(s)|..]));
        Associate([s[0]], Word(s[1..]), rest);
        EmptyFirst(Word(s) + rest);
      }
    }
  }

  lemma {:induction false} SqueezeIsJoined(s: string)
    ensures Squeeze(Scrub(s), false, false) == Joined(Words(s))
    decreases |s|
  {
    hide Separates;
    if s != "" {
      SqueezeStep(s, false, false);
      if Separates(s[0]) {
        SqueezeIsJoined(s[1..]);
      } else {
        SqueezeStep(s, false, true);
        SqueezeAfterWord(s);
        WordApart(s);
      }
    }
  }

  /** A label is its text's words joined by single spaces, cut to 60 characters. */
  lemma {:induction false} LabelIsWords(s: string)
    ensures var all := Joined(Words(s)); Label(s) == if |all| > 60 then all[..60] else all
  {
    hide Squeeze, Scrub, Joined, Words;
    SqueezeIsJoined(s);
  }

  lemma DisplayNameClean(a: Attr)
    ensures AllClean(DisplayName(a)) && DisplayName(a) != ""
  {
    hide Label;
    LabelClean(OrElse(a.name, a.ident));
  }

  // ---- round trip ----

  lemma {:induction false} FindAt(s: string, c: char, i: nat)
    requires i < |s| && s[i] == c && forall k :: 0 <= k < i ==> s[k] != c
    ensures Find(s, c) == i
  {
  }

  lemma ReplyParses(name: string, kind: Kind, id: string, reply: string)
    requires AllClean(reply)
    ensures ParseReply(name, kind, id, ReplyPart(reply) + "]") == Some(Parsed(name, kind, id, reply))
  {
    hide Find;
    var end := ReplyPart(reply) + "]";
    if reply != "" {
      assert end == REPLY + (reply + "]");
      assert end[..|REPLY|] == REPLY;
      forall k | 0 <= k < |end| - 1 ensures end[k] != ']' {
        if k >= |REPLY| {
          assert end[k] == reply[k - |REPLY|];
          assert Clean(reply[k - |REPLY|]);
        } else {
          assert end[k] == REPLY[k];
        }
      }
      FindAt(end, ']', |end| - 1);
      assert end[|REPLY|..|end| - 1] == reply;
    }
  }

  lemma KindParses(k: Kind)
    ensures KindOf(KindText(k)) == Some(k) && forall i :: 0 <= i < |KindText(k)| ==> KindText(k)[i] != ')'
  {
    assert "session"[0] == 's' && "service"[2] == 'r' && "session"[2] == 's' && "human"[0] == 'h'
      && "unknown"[0] == 'u';
  }

  function RestOf(a: Attr): string {
    " (" + KindText(a.kind) + AFTER_KIND + a.messageId + ReplyPart(Label(a.reply)) + "]"
  }

  lemma RestParses(a: Attr, name: string)
    requires IsId(a.messageId)
    ensures ParseRest(name, RestOf(a)) == Some(Parsed(name, a.kind, a.messageId, Label(a.reply)))
  {
    hide Find, IdShaped, Label, KindOf, ParseReply, ReplyPart;
    var rest, kind := RestOf(a), KindText(a.kind);
    var end := ReplyPart(Label(a.reply)) + "]";
    LabelClean(a.reply);
    ReplyParses(name, a.kind, a.messageId, Label(a.reply));
    KindParses(a.kind);
    IdLength(a.messageId);
    assert rest == " (" + (kind + (AFTER_KIND + (a.messageId + end)));
    assert rest[..2] == " (";
    var close := 2 + |kind|;
    assert AFTER_KIND[0] == ')';
    forall k | 0 <= k < close ensures rest[k] != ')' {
      assert k >= 2 ==> rest[k] == kind[k - 2];
    }
    FindAt(rest, ')', close);
    assert rest[2..close] == kind;
    assert rest[close..] == AFTER_KIND + (a.messageId + end);
    assert rest[close..][..|AFTER_KIND|] == AFTER_KIND;
    var tail := rest[close + |AFTER_KIND|..];
    assert tail == a.messageId + end;
    assert tail[..36] == a.messageId && tail[36..] == end;
  }

  lemma IdLength(s: string)
    requires IdShaped(s)
    ensures |s| == 36
  {
  }

  lemma {:induction false} SearchFinds(body: string, name: string, rest: string, n: nat)
    requires body == name + rest && StartsWith(rest, " (") && AllClean(name) && 1 <= n <= |name|
    requires ParseRest(name, rest).Some?
    ensures Search(body, n) == ParseRest(name, rest)
    decreases |name| - n
  {
    hide ParseRest, Clean;
    NoNewline();
    assert body[n - 1] == name[n - 1];
    assert Clean(name[n - 1]);
    if n == |name| {
      assert body[..n] == name && body[n..] == rest;
    } else {
      assert rest[0] == ' ' by { assert rest[0] == rest[..2][0]; }
      assert body[n + 1] == if n + 1 < |name| then name[n + 1] else ' ';
      if n + 1 < |name| { assert Clean(name[n + 1]); }
      NotParen(body, n);
      SearchFinds(body, name, rest, n + 1);
    }
  }

  lemma NoNewline()
    ensures !Clean('\n') && !Clean('(') && !Clean(')') && !Clean(']')
  {
  }

  lemma OpensWithParen(s: string)
    ensures StartsWith(s, " (") ==> s[1] == '('
  {
    assert StartsWith(s, " (") ==> s[1] == s[..2][1];
  }

  lemma NotParen(body: string, n: nat)
    requires n + 1 < |body| && body[n + 1] != '('
    ensures ParseRest(body[..n], body[n..]).None?
  {
    OpensWithParen(body[n..]);
  }

  /** Parsing a printed header recovers the label, the kind, the id and the reply address, exactly when the
      message id is one `uuid.UUID` accepts. */
  lemma HeaderRoundTrip(a: Attr)
    ensures var called := Label(if a.name != "" then a.name else a.ident);
      var name := if called != "" then called else "unnamed";
      ParseCompact(Header(a)) == Some(Parsed(name, a.kind, a.messageId, Label(a.reply))) <==> IsId(a.messageId)
  {
    if IsId(a.messageId) {
      HeaderParses(a);
    }
  }

  lemma HeaderParses(a: Attr)
    requires IsId(a.messageId)
    ensures ParseCompact(Header(a)) == Some(Parsed(DisplayName(a), a.kind, a.messageId, Label(a.reply)))
  {
    hide Search, ParseRest, DisplayName, Label, IsId, KindText, ReplyPart, Clean;
    var line, name, rest := Header(a), DisplayName(a), RestOf(a);
    DisplayNameClean(a);
    assert line == COMPACT + (name + rest);
    assert line[..|COMPACT|] == COMPACT && line[|COMPACT|..] == name + rest;
    assert line[|line| - 1] == ']';
    RestParses(a, name);
    assert rest[..2] == " (";
    SearchFinds(name + rest, name, rest, 1);
  }

  // ---- lines of a text ----

  /** `text.split('\n')`. */
  function Split(s: string): (ls: seq<string>)
    ensures ls != []
  {
    if s == "" then [""]
    else
      var rest := Split(s[1..]);
      if s[0] == '\n' then [""] + rest else [[s[0]] + rest[0]] + rest[1..]
  }

  /** `'\n'.join(lines)`. */
  function Join(ls: seq<string>): string {
    if ls == [] then "" else if |ls| == 1 then ls[0] else ls[0] + "\n" + Join(ls[1..])
  }

  predicate OneLine(s: string) {
    forall i :: 0 <= i < |s| ==> s[i] != '\n'
  }

  lemma {:induction false} SplitIsLines(s: string)
    ensures forall i :: 0 <= i < |Split(s)| ==> OneLine(Split(s)[i])
    ensures Join(Split(s)) == s
  {
    if s != "" {
      SplitIsLines(s[1..]);
      var rest := Split(s[1..]);
      if s[0] == '\n' {
        assert ([""] + rest)[1..] == rest;
      } else {
        var ls := [[s[0]] + rest[0]] + rest[1..];
        assert ls[1..] == rest[1..];
        assert OneLine(rest[0]);
        if |rest| > 1 {
          assert ([s[0]] + rest[0]) + "\n" + Join(rest[1..]) == [s[0]] + (rest[0] + "\n" + Join(rest[1..]));
        }
      }
    }
  }

  lemma {:induction false} SplitOneLine(l: string)
    requires OneLine(l)
    ensures Split(l) == [l]
  {
    if l != "" {
      assert l[0] != '\n' && [l[0]] + l[1..] == l;
      SplitOneLine(l[1..]);
    }
  }

  lemma {:induction false} SplitAppend(l: string, more: string)
    requires OneLine(l)
    ensures Split(l + "\n" + more) == [l] + Split(more)
  {
    var s := l + "\n" + more;
    if l == "" {
      assert s[1..] == more;
    } else {
      assert s[1..] == l[1..] + "\n" + more;
      SplitAppend(l[1..], more);
      assert s[0] == l[0] && l[0] != '\n' && [l[0]] + l[1..] == l;
      assert ([l[1..]] + Split(more))[1..] == Split(more);
    }
  }

  lemma {:induction false} SplitJoin(ls: seq<string>)
    requires ls != [] && forall i :: 0 <= i < |ls| ==> OneLine(ls[i])
    ensures Split(Join(ls)) == ls
  {
    if |ls| == 1 {
      SplitOneLine(ls[0]);
    } else {
      SplitJoin(ls[1..]);
      SplitAppend(ls[0], Join(ls[1..]));
    }
  }

  // ---- strip and carry ----

  /** Index of the first header among the first five lines, or 5. */
  function HeaderAt(ls: seq<string>, from: nat, legacy: string -> bool): (i: nat)
    requires from <= 5
    ensures from <= i <= 5 && (i < 5 ==> i < |ls|)
    decreases 5 - from
  {
    if from == 5 || from >= |ls| then 5
    else if IsHeader(ls[from], legacy) then from
    else HeaderAt(ls, from + 1, legacy)
  }

  function StripLines(ls: seq<string>, legacy: string -> bool): seq<string> {
    var i := HeaderAt(ls, 0, legacy);
    if i < 5 then ls[..i] + ls[i + 1..] else ls
  }

  function Strip(text: string, legacy: string -> bool): string {
    Join(StripLines(Split(text), legacy))
  }

  function SkipSpaces(s: string): string {
    if s != "" && IsSpace(s[0]) then SkipSpaces(s[1..]) else s
  }

  function SkipWord(s: string, word: char -> bool): string {
    if s != "" && (word(s[0]) || s[0] == ':' || s[0] == '-') then SkipWord(s[1..], word) else s
  }

  /**
    A slash command such as `/compact`, and not a path: optional blanks, a slash, a letter, then
    word characters, colons and dashes, ended by a blank or by the end. `word` is the `\w` class.
  */
  predicate IsCommand(text: string, word: char -> bool) {
    var s := SkipSpaces(text);
    |s| >= 2 && s[0] == '/' && ('a' <= s[1] <= 'z' || 'A' <= s[1] <= 'Z')
    && (var rest := SkipWord(s[2..], word); rest == "" || IsSpace(rest[0]))
  }

  const ORIG := "orig_msg_id:"

  function Place(ls: seq<string>): nat {
    if ls != [] && StartsWith(ls[0], ORIG) then 1 else 0
  }

  function Carry(text: string, a: Attr, emit: bool, legacy: string -> bool, word: char -> bool): string {
    if !emit || IsCommand(text, word) then text
    else
      var bare := Strip(text, legacy);
      if a.kind.FromHuman? then bare
      else
        var ls := Split(bare);
        Join(ls[..Place(ls)] + [Header(a)] + ls[Place(ls)..])
  }

  lemma HeaderIsHeader(a: Attr, legacy: string -> bool)
    requires IsId(a.messageId)
    ensures IsHeader(Header(a), legacy) && OneLine(Header(a)) && Header(a) != "" && Header(a)[0] == '['
  {
    hide ParseCompact, DisplayName, Label, KindText, Clean, IsId;
    HeaderParses(a);
    DisplayNameClean(a);
    LabelClean(a.reply);
    IdIsOneLine(a.messageId);
    KindIsOneLine(a.kind);
    NoNewline();
    CleanIsOneLine(DisplayName(a));
    CleanIsOneLine(Label(a.reply));
    OneLineConcat(COMPACT, DisplayName(a));
    OneLineConcat(COMPACT + DisplayName(a), " (");
    OneLineConcat(COMPACT + DisplayName(a) + " (", KindText(a.kind));
    OneLineConcat(COMPACT + DisplayName(a) + " (" + KindText(a.kind), AFTER_KIND);
    OneLineConcat(COMPACT + DisplayName(a) + " (" + KindText(a.kind) + AFTER_KIND, a.messageId);
    OneLineConcat(REPLY, Label(a.reply));
    OneLineConcat(COMPACT + DisplayName(a) + " (" + KindText(a.kind) + AFTER_KIND + a.messageId,
      ReplyPart(Label(a.reply)));
    OneLineConcat(COMPACT + DisplayName(a) + " (" + KindText(a.kind) + AFTER_KIND + a.messageId
      + ReplyPart(Label(a.reply)), "]");
    assert COMPACT[0] == '[';
  }

  lemma OneLineConcat(a: string, b: string)
    requires OneLine(a) && OneLine(b)
    ensures OneLine(a + b)
  {
  }

  lemma CleanIsOneLine(s: string)
    requires AllClean(s)
    ensures OneLine(s)
  {
    NoNewline();
    forall i | 0 <= i < |s| ensures s[i] != '\n' {
      assert Clean(s[i]);
    }
  }

  lemma IdIsOneLine(s: string)
    requires IsId(s)
    ensures OneLine(s)
  {
    forall i | 0 <= i < |s| ensures s[i] != '\n' {
      assert IsHexDash(s[i]);
    }
  }

  lemma KindIsOneLine(k: Kind)
    ensures OneLine(KindText(k))
  {
  }

  lemma FirstOf(line: string, prefix: string)
    requires prefix != ""
    ensures StartsWith(line, prefix) ==> line[0] == prefix[0]
  {
    assert StartsWith(line, prefix) ==> line[0] == line[..|prefix|][0];
  }

  lemma OrigIsNoHeader(line: string, legacy: string -> bool)
    requires StartsWith(line, ORIG)
    ensures !IsHeader(line, legacy)
  {
    FirstOf(line, ORIG);
    assert COMPACT[0] == '[' && LEGACY[0] == '[' && ORIG[0] == 'o';
    FirstOf(line, COMPACT);
    FirstOf(line, LEGACY);
  }

  /** The lines of a carried text: the header sits where the next strip finds it, and nothing else moved. */
  lemma CarriedLines(text: string, a: Attr, legacy: string -> bool, word: char -> bool)
    requires IsId(a.messageId) && !a.kind.FromHuman? && !IsCommand(text, word)
    ensures var ls := Split(Strip(text, legacy));
      var out := Split(Carry(text, a, true, legacy, word));
      && out == ls[..Place(ls)] + [Header(a)] + ls[Place(ls)..]
      && StripLines(out, legacy) == ls
  {
    hide IsHeader, Header, Strip, IsId, IsCommand, Split, Join;
    var ls := Split(Strip(text, legacy));
    var at := Place(ls);
    var out := ls[..at] + [Header(a)] + ls[at..];
    SplitIsLines(Strip(text, legacy));
    HeaderIsHeader(a, legacy);
    SplitJoin(out);
    assert out[at] == Header(a);
    if at == 1 {
      OrigIsNoHeader(ls[0], legacy);
      assert out[0] == ls[0];
    }
    assert HeaderAt(out, at, legacy) == at;
    assert HeaderAt(out, 0, legacy) == at;
    assert out[..at] + out[at + 1..] == ls;
  }

  /** Stripping what was carried is stripping the original. */
  lemma StripCarry(text: string, a: Attr, legacy: string -> bool, word: char -> bool)
    requires IsId(a.messageId) && !a.kind.FromHuman? && !IsCommand(text, word)
    ensures Strip(Carry(text, a, true, legacy, word), legacy) == Strip(text, legacy)
  {
    hide Carry, IsId, IsCommand;
    CarriedLines(text, a, legacy, word);
    SplitIsLines(Strip(text, legacy));
  }

  lemma {:induction false} NotCommand(text: string, word: char -> bool)
    requires text != "" && (text[0] == '[' || text[0] == 'o')
    ensures !IsCommand(text, word)
  {
  }

  lemma CarriedIsNoCommand(text: string, a: Attr, legacy: string -> bool, word: char -> bool)
    requires IsId(a.messageId) && !a.kind.FromHuman? && !IsCommand(text, word)
    ensures !IsCommand(Carry(text, a, true, legacy, word), word)
  {
    hide Header, Strip, IsId, IsCommand, Split;
    var ls := Split(Strip(text, legacy));
    var at := Place(ls);
    var out := ls[..at] + [Header(a)] + ls[at..];
    HeaderIsHeader(a, legacy);
    assert |out| >= 2;
    if at == 1 {
      assert out[0] == ls[0] && ls[0][0] == ls[0][..|ORIG|][0] == 'o';
    } else {
      assert out[0] == Header(a);
    }
    assert Join(out)[0] == out[0][0];
    NotCommand(Join(out), word);
  }

  /** A second carrier replaces the first. */
  lemma CarryReplaces(text: string, a: Attr, b: Attr, legacy: string -> bool, word: char -> bool)
    requires IsId(a.messageId) && !a.kind.FromHuman? && !IsCommand(text, word)
    ensures Carry(Carry(text, a, true, legacy, word), b, true, legacy, word) == Carry(text, b, true, legacy, word)
  {
    hide Strip, IsId, IsCommand, Split, Header, Join;
    StripCarry(text, a, legacy, word);
    CarriedIsNoCommand(text, a, legacy, word);
  }

  // ---- the list edits ----

  /** `strip_header`. */
  method StripHeader(text: string, legacy: string -> bool) returns (r: string)
    ensures r == Strip(text, legacy)
  {
    hide IsHeader, Join, Split;
    var lines := Split(text);
    ghost var all := lines;
    var index := 0;
    while index < 5 && index < |lines|
      invariant 0 <= index <= 5 && index <= |lines| && lines == all
      invariant HeaderAt(all, index, legacy) == HeaderAt(all, 0, legacy)
    {
      if IsHeader(lines[index], legacy) {
        lines := lines[..index] + lines[index + 1..];
        return Join(lines);
      }
      index := index + 1;
    }
    r := Join(lines);
  }

  /** `carry`. */
  method CarryHeader(text: string, a: Attr, emit: bool, legacy: string -> bool, word: char -> bool) returns (r: string)
    ensures r == Carry(text, a, emit, legacy, word)
  {
    hide IsCommand, Header, Join, Split, Strip;
    if !emit || IsCommand(text, word) {
      return text;
    }
    var bare := StripHeader(text, legacy);
    if a.kind.FromHuman? {
      return bare;
    }
    var lines := Split(bare);
    var at := if lines != [] && StartsWith(lines[0], ORIG) then 1 else 0;
    lines := lines[..at] + [Header(a)] + lines[at..];
    r := Join(lines);
  }
}
