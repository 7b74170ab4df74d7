/** `_acp_terminal_pump` (ccc_server/acp.py:1297-1323, limit at 1441): a terminal's output is kept in a
    buffer cut from the front at a UTF-8 character boundary, chunk by chunk. */
module TerminalPump {
  import opened Sequences

  type Bytes = seq<bv8>

  // ---- UTF-8 (RFC 3629, section 4) ----

  /** UTF8-tail, and the source's test `(b & 0xC0) == 0x80`. */
  predicate IsTail(b: bv8) {
    b & 0xC0 == 0x80
  }

  predicate Tails(s: Bytes, n: nat)
    requires 1 <= n
  {
    n <= |s| && forall i :: 1 <= i < n ==> IsTail(s[i])
  }

  /** Length of the well-formed character `s` begins with, or 0. */
  function CharLen(s: Bytes): (n: nat)
    ensures n <= |s| && n <= 4
    ensures n > 0 ==> !IsTail(s[0]) && forall i :: 1 <= i < n ==> IsTail(s[i])
  {
    if s == [] then 0
    else if s[0] <= 0x7F then 1
    else if 0xC2 <= s[0] <= 0xDF && Tails(s, 2) then 2
    else if 0xE0 <= s[0] <= 0xEF && Tails(s, 3) && (s[0] == 0xE0 ==> s[1] >= 0xA0) && (s[0] == 0xED ==> s[1] <= 0x9F)
      then 3
    else if 0xF0 <= s[0] <= 0xF4 && Tails(s, 4) && (s[0] == 0xF0 ==> s[1] >= 0x90) && (s[0] == 0xF4 ==> s[1] <= 0x8F)
      then 4
    else 0
  }

  predicate Utf8(s: Bytes)
    decreases |s|
  {
    s == [] || (CharLen(s) > 0 && Utf8(s[CharLen(s)..]))
  }

  /** A character of `s` starts, or `s` ends, at `i`. */
  predicate Boundary(s: Bytes, i: nat)
    decreases |s|
  {
    i == 0 || (CharLen(s) > 0 && i >= CharLen(s) && Boundary(s[CharLen(s)..], i - CharLen(s)))
  }

  /** In well-formed text the boundaries are the end and the bytes that are not tails. */
  lemma {:induction false} BoundaryIsNotTail(s: Bytes, i: nat)
    requires Utf8(s) && i <= |s|
    ensures Boundary(s, i) <==> i == |s| || !IsTail(s[i])
    decreases |s|
  {
    if s != [] {
      var n := CharLen(s);
      if i >= n {
        BoundaryIsNotTail(s[n..], i - n);
        assert i < |s| ==> s[n..][i - n] == s[i];
      }
    }
  }

  /** Among any four consecutive bytes of well-formed text one is not a tail. */
  lemma {:induction false} NextLead(s: Bytes, i: nat) returns (j: nat)
    requires Utf8(s) && i <= |s|
    ensures i <= j <= i + 3 && j <= |s| && (j == |s| || !IsTail(s[j]))
    decreases |s|
  {
    if i == |s| || !IsTail(s[i]) {
      j := i;
    } else {
      var n := CharLen(s);
      if i < n {
        j := n;
        if n < |s| {
          assert Utf8(s[n..]) && s[n..] != [] && s[n..][0] == s[n];
        }
      } else {
        j := NextLead(s[n..], i - n);
        j := j + n;
        assert j < |s| ==> s[n..][j - n] == s[j];
      }
    }
  }

  // ---- one-shot truncation ----

  function SkipTails(s: Bytes, i: nat): (j: nat)
    requires i <= |s|
    ensures i <= j <= |s| && (j < |s| ==> !IsTail(s[j]))
    ensures forall k :: i <= k < j ==> IsTail(s[k])
    decreases |s| - i
  {
    if i < |s| && IsTail(s[i]) then SkipTails(s, i + 1) else i
  }

  /** Where the kept part of everything read so far begins. */
  function Cut(read: Bytes, limit: nat): (p: nat)
    ensures p <= |read|
  {
    if |read| <= limit then 0 else SkipTails(read, |read| - limit)
  }

  /** The kept part is the longest suffix that fits the limit and starts on a character boundary of the whole
      stream; a nonempty cut means bytes were dropped. */
  lemma CutIsLongestSuffix(stream: Bytes, read: Bytes, limit: nat, q: nat)
    requires Utf8(stream) && read <= stream && limit >= 4096 && q <= |read|
    ensures |read| - Cut(read, limit) <= limit
    ensures Boundary(stream, Cut(read, limit))
    ensures Boundary(stream, q) && |read| - q <= limit ==> Cut(read, limit) <= q
    ensures Cut(read, limit) > 0 <==> |read| > limit
    ensures |read| > limit ==> Cut(read, limit) < |read|
  {
    var p := Cut(read, limit);
    if |read| > limit {
      var i := |read| - limit;
      var j := NextLead(stream, i);
      assert j < |read| && read[j] == stream[j];
      assert p <= j;
      assert stream[p] == read[p];
      BoundaryIsNotTail(stream, p);
      BoundaryIsNotTail(stream, q);
      assert q < |read| ==> read[q] == stream[q];
    }
  }

  // ---- one chunk ----

  lemma {:induction false} SkipInSuffix(s: Bytes, p: nat, i: nat)
    requires p <= i <= |s|
    ensures SkipTails(s[p..], i - p) == SkipTails(s, i) - p
    decreases |s| - i
  {
    if i < |s| && IsTail(s[i]) {
      SkipInSuffix(s, p, i + 1);
    }
  }

  lemma {:induction false} SkipLands(s: Bytes, i: nat, j: nat)
    requires i <= j <= |s| && (j < |s| ==> !IsTail(s[j])) && forall k :: i <= k < j ==> IsTail(s[k])
    ensures SkipTails(s, i) == j
    decreases j - i
  {
    if i < j {
      SkipLands(s, i + 1, j);
    }
  }

  /** Cutting what was kept plus the next chunk is cutting the whole. */
  lemma CutIncrementally(stream: Bytes, read: Bytes, chunk: Bytes, limit: nat)
    requires Utf8(stream) && read + chunk <= stream && limit >= 4096
    ensures var p, all := Cut(read, limit), read + chunk;
      Cut(all, limit) == p + Cut(all[p..], limit)
  {
    hide Utf8, Boundary, CharLen;
    var p, all := Cut(read, limit), read + chunk;
    assert read <= stream by { assert all[..|read|] == read; }
    CutIsLongestSuffix(stream, read, limit, 0);
    if |all[p..]| > limit {
      SkipInSuffix(all, p, |all| - limit);
    } else if |all| > limit {
      assert forall k :: |all| - limit <= k < p ==> all[k] == read[k];
      assert all[p] == read[p];
      SkipLands(all, |all| - limit, p);
    }
  }

  /** One loop body against the whole stream read so far. */
  lemma AbsorbKeepsCut(stream: Bytes, read: Bytes, chunk: Bytes, limit: nat)
    requires Utf8(stream) && read + chunk <= stream && limit >= 4096
    ensures var all, held := read + chunk, read[Cut(read, limit)..] + chunk;
      && held[Cut(held, limit)..] == all[Cut(all, limit)..]
      && ((|read| > limit || |held| > limit) <==> |all| > limit)
  {
    hide Utf8, Boundary, Cut, IsTail;
    var p, all := Cut(read, limit), read + chunk;
    var held := read[p..] + chunk;
    CutIncrementally(stream, read, chunk, limit);
    assert held == all[p..];
    assert read <= stream by { assert all[..|read|] == read; }
    CutIsLongestSuffix(stream, read, limit, 0);
    CutIsLongestSuffix(stream, all, limit, 0);
    CutZero(read, limit);
  }

  lemma CutZero(read: Bytes, limit: nat)
    ensures |read| <= limit ==> Cut(read, limit) == 0
  {
  }

  /** One entry of `_ACP_TERMINALS`. */
  class Terminal {
    var buf: Bytes
    var truncated: bool
    const limit: nat

    constructor (outputByteLimit: nat)
      ensures limit >= 4096 && limit >= outputByteLimit && (outputByteLimit >= 4096 ==> limit == outputByteLimit)
      ensures buf == [] && !truncated
    {
      limit := if outputByteLimit >= 4096 then outputByteLimit else 4096;
      buf, truncated := [], false;
    }

    /** The body of the pump's loop, under the lock. */
    method Absorb(chunk: Bytes)
      requires limit >= 4096
      modifies this
      ensures buf == (old(buf) + chunk)[Cut(old(buf) + chunk, limit)..]
      ensures truncated == (old(truncated) || |old(buf) + chunk| > limit)
    {
      buf := buf + chunk;
      if |buf| > limit {
        var start := |buf| - limit;
        while start < |buf| && IsTail(buf[start])
          invariant |buf| - limit <= start <= |buf|
          invariant SkipTails(buf, start) == SkipTails(buf, |buf| - limit)
        {
          start := start + 1;
        }
        buf := buf[start..];
        truncated := true;
      }
    }

    /** Drain any part read so far of a well-formed output stream, however it is chunked and even if it ends inside a
        character: the buffer is the longest suffix of what was read that fits and starts on a character boundary of
        the stream, and `truncated` says whether anything was dropped. */
    method Pump(chunks: seq<Bytes>, ghost stream: Bytes)
      requires limit >= 4096 && buf == [] && !truncated && Utf8(stream) && Concat(chunks) <= stream
      modifies this
      ensures var read := Concat(chunks); buf == read[Cut(read, limit)..] && (truncated <==> Cut(read, limit) > 0)
    {
      hide Utf8, Boundary, Cut, IsTail, Concat;
      NothingRead();
      CutZero([], limit);
      for i := 0 to |chunks|
        invariant var read := Concat(chunks[..i]); buf == read[Cut(read, limit)..] && (truncated <==> |read| > limit)
      {
        ghost var read := Concat(chunks[..i]);
        ConcatLast(chunks[..i], chunks[i]);
        assert chunks[..i + 1] == chunks[..i] + [chunks[i]];
        ConcatPrefix(chunks, i + 1);
        AbsorbKeepsCut(stream, read, chunks[i], limit);
        Absorb(chunks[i]);
      }
      assert chunks[..|chunks|] == chunks;
      CutIsLongestSuffix(stream, Concat(chunks), limit, 0);
    }
  }

  lemma NothingRead()
    ensures Concat<bv8>([]) == []
  {
  }
}
