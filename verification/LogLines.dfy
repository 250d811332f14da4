/** The container log writer: a byte stream, however it is split into writes, becomes bounded lines. */
module LogLines {
  import opened Utf8

  const MAX_LOG_LINE_BYTES := 65536
  const NEWLINE: Byte := 10
  const CARRIAGE_RETURN: Byte := 13

  datatype Entry = Entry(text: seq<Byte>, truncated: bool)

  // ---------------------------------------------------------------- lines of a stream

  /** What follows the last newline. */
  function Tail(s: seq<Byte>): (t: seq<Byte>)
    ensures |t| <= |s|
  {
    if s == [] || s[|s| - 1] == NEWLINE then [] else Tail(s[..|s| - 1]) + [s[|s| - 1]]
  }

  /** The lines a newline has ended. */
  function Lines(s: seq<Byte>): seq<seq<Byte>> {
    if s == [] then []
    else if s[|s| - 1] == NEWLINE then Lines(s[..|s| - 1]) + [Tail(s[..|s| - 1])]
    else Lines(s[..|s| - 1])
  }

  /** The lines an entry stands for: the ended ones, and an open one already at the cap. */
  function ShippedLines(s: seq<Byte>): seq<seq<Byte>> {
    Lines(s) + if |Tail(s)| >= MAX_LOG_LINE_BYTES then [Tail(s)] else []
  }

  function WithoutReturn(line: seq<Byte>): seq<Byte> {
    if |line| > 0 && line[|line| - 1] == CARRIAGE_RETURN then line[..|line| - 1] else line
  }

  /** Exactly one trailing carriage return goes, and nothing else. */
  lemma OneReturnGoes(line: seq<Byte>)
    ensures line != [] && line[|line| - 1] == 13 ==> WithoutReturn(line) + [13] == line
    ensures line == [] || line[|line| - 1] != 13 ==> WithoutReturn(line) == line
  {
    if line != [] {
      assert line == line[..|line| - 1] + [line[|line| - 1]];
    }
  }

  /** The entry of a line cut at the cap. */
  function Cut(line: seq<Byte>): Entry
    requires |line| >= MAX_LOG_LINE_BYTES
  {
    var prefix := line[..MAX_LOG_LINE_BYTES];
    Entry(WithoutReturn(prefix[..TrimLength(prefix)]), true)
  }

  /** The entries a line may have: one, except exactly at the cap. */
  predicate Renders(e: Entry, line: seq<Byte>) {
    || (|line| <= MAX_LOG_LINE_BYTES && e == Entry(WithoutReturn(line), false))
    || (|line| >= MAX_LOG_LINE_BYTES && e == Cut(line))
  }

  /** The entries are those of the stream so far; an open line at the cap was cut. */
  ghost predicate Shipped(entries: seq<Entry>, s: seq<Byte>) {
    && |entries| == |ShippedLines(s)|
    && (forall i :: 0 <= i < |entries| ==> Renders(entries[i], ShippedLines(s)[i]))
    && (|Tail(s)| >= MAX_LOG_LINE_BYTES ==> entries[|entries| - 1] == Cut(Tail(s)))
  }

  /** The stream a list of ended lines and an open line came from. */
  function Joined(lines: seq<seq<Byte>>, open: seq<Byte>): seq<Byte> {
    if lines == [] then open else Joined(lines[..|lines| - 1], lines[|lines| - 1] + [NEWLINE] + open)
  }

  lemma {:induction false} JoinedAppend(lines: seq<seq<Byte>>, open: seq<Byte>, more: seq<Byte>)
    ensures Joined(lines, open + more) == Joined(lines, open) + more
  {
    if lines != [] {
      var last := lines[|lines| - 1];
      JoinedAppend(lines[..|lines| - 1], last + [NEWLINE] + open, more);
      assert last + [NEWLINE] + (open + more) == last + [NEWLINE] + open + more;
    }
  }

  /**
   * Splitting loses nothing: the lines and the open line, joined by newlines, are the stream, and none holds a
   * newline.
   */
  lemma {:induction false} StreamIsItsLines(s: seq<Byte>)
    ensures Joined(Lines(s), Tail(s)) == s && NoNewline(Tail(s))
    ensures forall i :: 0 <= i < |Lines(s)| ==> NoNewline(Lines(s)[i])
  {
    if s != [] {
      var front, last := s[..|s| - 1], s[|s| - 1];
      StreamIsItsLines(front);
      if last == NEWLINE {
        assert Lines(s)[..|Lines(s)| - 1] == Lines(front);
        assert Tail(front) + [NEWLINE] + [] == Tail(front) + [NEWLINE];
      }
      JoinedAppend(Lines(front), Tail(front), [last]);
      assert s == front + [last];
    }
  }

  predicate NoNewline(g: seq<Byte>) {
    forall i :: 0 <= i < |g| ==> g[i] != NEWLINE
  }

  lemma ByteGrows(s: seq<Byte>, b: Byte)
    requires b != NEWLINE
    ensures Tail(s + [b]) == Tail(s) + [b] && Lines(s + [b]) == Lines(s)
  {
    assert (s + [b])[..|s|] == s;
  }

  lemma AppendInTwo(s: seq<Byte>, g: seq<Byte>)
    requires g != []
    ensures s + g == s + g[..|g| - 1] + [g[|g| - 1]]
  {
  }

  /** Bytes without a newline extend the open line. */
  lemma {:induction false} OpenLineGrows(s: seq<Byte>, g: seq<Byte>)
    requires NoNewline(g)
    ensures Tail(s + g) == Tail(s) + g && Lines(s + g) == Lines(s)
  {
    if g == [] {
      assert s + g == s;
    } else {
      var front, last := g[..|g| - 1], g[|g| - 1];
      OpenLineGrows(s, front);
      ByteGrows(s + front, last);
      AppendInTwo(s, g);
      AppendInTwo(Tail(s), g);
    }
  }

  /** A newline ends the open line. */
  lemma NewlineEnds(s: seq<Byte>)
    ensures Tail(s + [NEWLINE]) == [] && Lines(s + [NEWLINE]) == Lines(s) + [Tail(s)]
  {
    assert (s + [NEWLINE])[..|s|] == s;
  }

  // ---------------------------------------------------------------- keeping entries and stream in step

  /** An ended line that was not shipped yet adds its entry. */
  lemma ShipsEnded(entries: seq<Entry>, s: seq<Byte>, g: seq<Byte>, e: Entry)
    requires Shipped(entries, s) && NoNewline(g) && |Tail(s)| < MAX_LOG_LINE_BYTES && Renders(e, Tail(s) + g)
    ensures Shipped(entries + [e], s + g + [NEWLINE])
  {
    OpenLineGrows(s, g);
    NewlineEnds(s + g);
    assert ShippedLines(s + g + [NEWLINE]) == ShippedLines(s) + [Tail(s) + g];
  }

  lemma CutIgnoresRest(line: seq<Byte>, g: seq<Byte>)
    requires |line| >= MAX_LOG_LINE_BYTES
    ensures Cut(line + g) == Cut(line)
  {
    assert (line + g)[..MAX_LOG_LINE_BYTES] == line[..MAX_LOG_LINE_BYTES];
  }

  /** The rest of a line that was already cut, and its newline, add nothing. */
  lemma ShipsDiscarded(entries: seq<Entry>, s: seq<Byte>, g: seq<Byte>)
    requires Shipped(entries, s) && NoNewline(g) && |Tail(s)| >= MAX_LOG_LINE_BYTES
    ensures Shipped(entries, s + g) && Shipped(entries, s + g + [NEWLINE])
  {
    OpenLineGrows(s, g);
    NewlineEnds(s + g);
    CutIgnoresRest(Tail(s), g);
    var n := |Lines(s)|;
    assert ShippedLines(s + g) == Lines(s) + [Tail(s) + g];
    assert ShippedLines(s + g + [NEWLINE]) == Lines(s) + [Tail(s) + g];
    assert forall i :: 0 <= i < n ==> ShippedLines(s)[i] == Lines(s)[i];
  }

  /** An open line adds an entry when it reaches the cap, and nothing before. */
  lemma ShipsOpen(entries: seq<Entry>, s: seq<Byte>, g: seq<Byte>)
    requires Shipped(entries, s) && NoNewline(g) && |Tail(s)| < MAX_LOG_LINE_BYTES
    ensures |Tail(s) + g| < MAX_LOG_LINE_BYTES ==> Shipped(entries, s + g)
    ensures |Tail(s) + g| >= MAX_LOG_LINE_BYTES ==> Shipped(entries + [Cut(Tail(s) + g)], s + g)
  {
    OpenLineGrows(s, g);
    assert ShippedLines(s) == Lines(s);
  }

  method IndexByte(p: seq<Byte>) returns (idx: int)
    ensures -1 <= idx < |p|
    ensures idx < 0 ==> NoNewline(p)
    ensures idx >= 0 ==> NoNewline(p[..idx]) && p[idx] == NEWLINE
  {
    idx := 0;
    while idx < |p|
      invariant 0 <= idx <= |p| && NoNewline(p[..idx])
    {
      if p[idx] == NEWLINE {
        return;
      }
      idx := idx + 1;
    }
    idx := -1;
  }

  lemma SplitAt(s: seq<Byte>, rest: seq<Byte>, idx: nat)
    requires idx < |rest|
    ensures s + rest[..idx] + [rest[idx]] + rest[idx + 1..] == s + rest
  {
    assert rest[..idx] + [rest[idx]] + rest[idx + 1..] == rest;
  }

  class LogWriter {
    var buf: seq<Byte>
    var truncated: bool
    var discarding: bool
    var entries: seq<Entry>
    ghost var stream: seq<Byte>

    /** Between writes: the buffer is the open line below the cap, or empty after that line was cut. */
    ghost predicate Valid()
      reads this
    {
      && !truncated
      && Shipped(entries, stream)
      && (if discarding then buf == [] && |Tail(stream)| >= MAX_LOG_LINE_BYTES
          else buf == Tail(stream) && |buf| < MAX_LOG_LINE_BYTES)
    }

    constructor ()
      ensures Valid() && stream == [] && entries == []
    {
      buf, truncated, discarding, entries, stream := [], false, false, [], [];
    }

    /** Keeps the first MAX_LOG_LINE_BYTES of the line and notes whether any byte was dropped. */
    method Append(p: seq<Byte>)
      requires |buf| <= MAX_LOG_LINE_BYTES
      modifies this`buf, this`truncated
      ensures |old(buf) + p| <= MAX_LOG_LINE_BYTES ==> buf == old(buf) + p && truncated == old(truncated)
      ensures |old(buf) + p| > MAX_LOG_LINE_BYTES ==> buf == (old(buf) + p)[..MAX_LOG_LINE_BYTES] && truncated
    {
      var room := MAX_LOG_LINE_BYTES - |buf|;
      if room <= 0 {
        if |p| > 0 {
          truncated := true;
        }
        assert |p| > 0 ==> buf == (old(buf) + p)[..MAX_LOG_LINE_BYTES];
        assert |p| == 0 ==> buf == old(buf) + p;
        return;
      }
      var kept := p;
      if |p| > room {
        kept := p[..room];
        truncated := true;
        assert buf + kept == (old(buf) + p)[..MAX_LOG_LINE_BYTES];
      }
      buf := buf + kept;
    }

    method Emit()
      modifies this`buf, this`truncated, this`entries
      ensures buf == [] && !truncated
      ensures entries == old(entries) + [Entry(
        WithoutReturn(if old(truncated) then old(buf)[..TrimLength(old(buf))] else old(buf)), old(truncated))]
    {
      var line := buf;
      if truncated {
        var n := TrimToRune(line);
        line := line[..n];
      }
      entries := entries + [Entry(WithoutReturn(line), truncated)];
      buf, truncated := [], false;
    }

    /** Whatever the split, after each write the entries and the buffer are those of the whole stream so far. */
    method Write(p: seq<Byte>) returns (written: nat)
      requires Valid()
      modifies this
      ensures Valid() && stream == old(stream) + p && written == |p|
    {
      written := |p|;
      var rest := p;
      while |rest| > 0
        invariant Valid() && stream + rest == old(stream) + p
      {
        var idx := IndexByte(rest);
        if idx < 0 {
          WriteOpen(rest);
          return;
        }
        SplitAt(stream, rest, idx);
        WriteLine(rest[..idx]);
        rest := rest[idx + 1..];
      }
    }

    /** Ships the line the buffer and the bytes up to a newline make, cut if it is over the cap. */
    method EmitLine(g: seq<Byte>) returns (ghost e: Entry)
      requires !truncated && |buf| < MAX_LOG_LINE_BYTES
      modifies this`buf, this`truncated, this`entries
      ensures buf == [] && !truncated && entries == old(entries) + [e] && Renders(e, old(buf) + g)
    {
      ghost var line := buf + g;
      Append(g);
      assert buf == if |line| > MAX_LOG_LINE_BYTES then line[..MAX_LOG_LINE_BYTES] else line;
      Emit();
      e := entries[|entries| - 1];
    }

    /** A part of the chunk up to a newline. */
    method WriteLine(g: seq<Byte>)
      requires Valid() && NoNewline(g)
      modifies this
      ensures Valid() && stream == old(stream) + g + [NEWLINE]
    {
      ghost var ended := stream + g + [NEWLINE];
      assert Tail(ended) == [] by {
        NewlineEnds(stream + g);
      }
      if !discarding {
        ghost var e := EmitLine(g);
        ShipsEnded(old(entries), stream, g, e);
      } else {
        ShipsDiscarded(entries, stream, g);
      }
      discarding := false;
      stream := ended;
    }

    /** Ships the capped prefix of a line whose end has not come. */
    method ShipPrefix(ghost line: seq<Byte>)
      requires |line| >= MAX_LOG_LINE_BYTES && buf == line[..MAX_LOG_LINE_BYTES]
      modifies this`buf, this`truncated, this`entries, this`discarding
      ensures buf == [] && !truncated && discarding && entries == old(entries) + [Cut(line)]
    {
      truncated := true;
      Emit();
      discarding := true;
    }

    /** The end of a chunk without a newline; a line that reaches the cap is shipped at once. */
    method WriteOpen(g: seq<Byte>)
      requires Valid() && NoNewline(g)
      modifies this
      ensures Valid() && stream == old(stream) + g
    {
      ghost var line, longer := Tail(stream) + g, stream + g;
      assert Tail(longer) == line by {
        OpenLineGrows(stream, g);
      }
      if discarding {
        ShipsDiscarded(entries, stream, g);
      } else {
        ShipsOpen(entries, stream, g);
        FillLine(g);
      }
      assert Shipped(entries, longer);
      stream := longer;
    }

    /** Buffers the bytes, and ships the line at once if that brings it to the cap. */
    method FillLine(g: seq<Byte>)
      requires !truncated && !discarding && |buf| < MAX_LOG_LINE_BYTES
      modifies this`buf, this`truncated, this`entries, this`discarding
      ensures !truncated
      ensures |old(buf) + g| < MAX_LOG_LINE_BYTES ==> buf == old(buf) + g && !discarding && entries == old(entries)
      ensures |old(buf) + g| >= MAX_LOG_LINE_BYTES ==>
        buf == [] && discarding && entries == old(entries) + [Cut(old(buf) + g)]
    {
      ghost var line := buf + g;
      Append(g);
      if |buf| == MAX_LOG_LINE_BYTES {
        assert buf == line[..MAX_LOG_LINE_BYTES];
        ShipPrefix(line);
      }
    }
  }

  // ---------------------------------------------------------------- independence of the split

  /** The text of a line of valid UTF-8. */
  function Text(line: seq<Byte>): seq<Byte> {
    if |line| >= MAX_LOG_LINE_BYTES then Cut(line).text else WithoutReturn(line)
  }

  lemma RendersText(e: Entry, line: seq<Byte>)
    requires Renders(e, line) && ValidUtf8(line)
    ensures e.text == Text(line)
    ensures |line| != MAX_LOG_LINE_BYTES ==> e.truncated == (|line| > MAX_LOG_LINE_BYTES)
  {
    if |line| == MAX_LOG_LINE_BYTES {
      TrimmedIsValid(line, |line|);
      assert line[..MAX_LOG_LINE_BYTES] == line && line[..|line|] == line;
    }
  }

  /** A stream is its ended part, a newline and its open line, or its open line alone. */
  lemma {:induction false} TailSplits(s: seq<Byte>)
    ensures Tail(s) == s[|s| - |Tail(s)|..]
    ensures |Tail(s)| == |s| ==> Lines(s) == []
    ensures |Tail(s)| < |s| ==>
      var i := |s| - |Tail(s)| - 1; s[i] == NEWLINE && Lines(s) == Lines(s[..i]) + [Tail(s[..i])]
  {
    if s != [] && s[|s| - 1] != NEWLINE {
      var front := s[..|s| - 1];
      TailSplits(front);
      var i := |s| - |Tail(s)| - 1;
      if i >= 0 {
        assert front[..i] == s[..i];
      }
    }
  }

  /** Newlines never fall inside a rune, so every line of valid text is valid. */
  lemma {:induction false} LinesValid(s: seq<Byte>)
    requires ValidUtf8(s)
    ensures ValidUtf8(Tail(s)) && forall i :: 0 <= i < |Lines(s)| ==> ValidUtf8(Lines(s)[i])
    decreases |s|
  {
    TailSplits(s);
    if |Tail(s)| < |s| {
      var i := |s| - |Tail(s)| - 1;
      ValidAround(s, i);
      LinesValid(s[..i]);
      assert s[i + 1..] == Tail(s);
    } else {
      assert s[0..] == s;
    }
  }

  /** However valid text was split into writes, the texts are those of its lines. */
  lemma TextsOfStream(entries: seq<Entry>, s: seq<Byte>)
    requires Shipped(entries, s) && ValidUtf8(s)
    ensures |entries| == |ShippedLines(s)|
    ensures forall i :: 0 <= i < |entries| ==> entries[i].text == Text(ShippedLines(s)[i])
  {
    LinesValid(s);
    forall i | 0 <= i < |entries| ensures entries[i].text == Text(ShippedLines(s)[i]) {
      RendersText(entries[i], ShippedLines(s)[i]);
    }
  }

  /** Two splits of one valid stream ship the same texts; only a line exactly at the cap may differ in its flag. */
  lemma SplitDoesNotMatter(a: seq<Entry>, b: seq<Entry>, s: seq<Byte>)
    requires Shipped(a, s) && Shipped(b, s) && ValidUtf8(s)
    ensures |a| == |b|
    ensures forall i :: 0 <= i < |a| ==> a[i].text == b[i].text
    ensures forall i :: 0 <= i < |a| ==> a[i].truncated == b[i].truncated || |ShippedLines(s)[i]| == MAX_LOG_LINE_BYTES
  {
    TextsOfStream(a, s);
    TextsOfStream(b, s);
  }

  lemma CutText(line: seq<Byte>)
    requires ValidUtf8(line) && |line| >= MAX_LOG_LINE_BYTES
    ensures var n := TrimLength(line[..MAX_LOG_LINE_BYTES]);
      && MAX_LOG_LINE_BYTES - 3 <= n <= MAX_LOG_LINE_BYTES && ValidUtf8(line[..n])
          && Cut(line).text == WithoutReturn(line[..n])
  {
    TrimmedIsValid(line, MAX_LOG_LINE_BYTES);
    var n := TrimLength(line[..MAX_LOG_LINE_BYTES]);
    assert line[..MAX_LOG_LINE_BYTES][..n] == line[..n];
  }

  /** A carriage return is a rune of its own, so dropping it keeps text valid. */
  lemma WithoutReturnValid(line: seq<Byte>)
    requires ValidUtf8(line)
    ensures ValidUtf8(WithoutReturn(line)) && |line| - 1 <= |WithoutReturn(line)| <= |line|
  {
    if |line| > 0 && line[|line| - 1] == CARRIAGE_RETURN {
      ValidAround(line, |line| - 1);
    }
  }

  /** Every shipped text of a valid stream is valid, and a truncated one loses at most three bytes and a return. */
  lemma TruncatedTextValid(entries: seq<Entry>, s: seq<Byte>, i: nat)
    requires Shipped(entries, s) && ValidUtf8(s) && i < |entries|
    ensures ValidUtf8(entries[i].text)
    ensures entries[i].truncated ==> MAX_LOG_LINE_BYTES - 4 <= |entries[i].text| <= MAX_LOG_LINE_BYTES
    ensures entries[i].truncated ==> exists n: nat ::
      && MAX_LOG_LINE_BYTES - 3 <= n <= MAX_LOG_LINE_BYTES && n <= |ShippedLines(s)[i]|
      && entries[i].text == WithoutReturn(ShippedLines(s)[i][..n])
  {
    LinesValid(s);
    TextsOfStream(entries, s);
    var line := ShippedLines(s)[i];
    assert ValidUtf8(line);
    if |line| >= MAX_LOG_LINE_BYTES {
      CutText(line);
      WithoutReturnValid(line[..TrimLength(line[..MAX_LOG_LINE_BYTES])]);
    } else {
      WithoutReturnValid(line);
    }
  }
}
