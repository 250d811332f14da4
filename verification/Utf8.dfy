/** UTF-8 as section 3 of RFC 3629 defines it, and trimming a byte prefix back to a rune boundary. */
module Utf8 {
  type Byte = x: int | 0 <= x < 256

  /** Not a continuation byte. */
  predicate RuneStart(b: Byte) { !(0x80 <= b <= 0xBF) }

  predicate Within(b: Byte, lo: int, hi: int) { lo <= b <= hi }

  /** How many bytes a sequence with this first byte takes; a byte that starts none counts as one. */
  function Width(b: Byte): (n: nat)
    ensures 1 <= n <= 4
  {
    if Within(b, 0xC2, 0xDF) then 2 else if Within(b, 0xE0, 0xEF) then 3 else if Within(b, 0xF0, 0xF4) then 4 else 1
  }

  /** Which second bytes may follow a first byte. */
  predicate AcceptsSecond(first: Byte, second: Byte) {
    if first == 0xE0 then Within(second, 0xA0, 0xBF)
    else if first == 0xED then Within(second, 0x80, 0x9F)
    else if first == 0xF0 then Within(second, 0x90, 0xBF)
    else if first == 0xF4 then Within(second, 0x80, 0x8F)
    else Within(second, 0x80, 0xBF)
  }

  /** The bytes are one encoded rune. */
  predicate IsRune(s: seq<Byte>) {
    && |s| > 0 && |s| == Width(s[0]) && (|s| == 1 ==> s[0] < 0x80)
    && (|s| > 1 ==> AcceptsSecond(s[0], s[1]))
    && (|s| > 2 ==> Within(s[2], 0x80, 0xBF))
    && (|s| > 3 ==> Within(s[3], 0x80, 0xBF))
  }

  /** The bytes begin with a whole sequence, or with one no further byte can complete. */
  predicate FullRune(s: seq<Byte>) {
    && |s| > 0
    && (|| |s| >= Width(s[0])
        || (|s| > 1 && !AcceptsSecond(s[0], s[1]))
        || (|s| > 2 && !Within(s[2], 0x80, 0xBF)))
  }

  predicate ValidUtf8(s: seq<Byte>) {
    s == [] || (|s| >= Width(s[0]) && IsRune(s[..Width(s[0])]) && ValidUtf8(s[Width(s[0])..]))
  }

  /** One past the last rune start, or 0. */
  function LastStart(s: seq<Byte>): (n: nat)
    ensures n <= |s| && (n > 0 ==> RuneStart(s[n - 1]))
    ensures forall i :: n <= i < |s| ==> !RuneStart(s[i])
  {
    if s == [] || RuneStart(s[|s| - 1]) then |s| else LastStart(s[..|s| - 1])
  }

  /** Where a capped line is cut. */
  function TrimLength(s: seq<Byte>): nat {
    var n := LastStart(s);
    if n > 0 && !FullRune(s[n - 1..]) then n - 1 else |s|
  }

  method TrimToRune(line: seq<Byte>) returns (n: nat)
    ensures n == TrimLength(line) && n <= |line|
  {
    n := |line|;
    while n > 0 && !RuneStart(line[n - 1])
      invariant n <= |line| && LastStart(line[..n]) == LastStart(line)
    {
      n := n - 1;
      assert line[..n + 1][..n] == line[..n];
    }
    assert line[..|line|] == line;
    if n > 0 && !FullRune(line[n - 1..]) {
      n := n - 1;
    } else {
      n := |line|;
    }
  }

  // ---------------------------------------------------------------- what trimming does to valid text

  /** The last rune boundary at or before c. */
  function Boundary(s: seq<Byte>, c: nat): (n: nat)
    requires ValidUtf8(s) && c <= |s|
    ensures n <= c <= n + 3
    decreases |s|
  {
    if c == 0 || c < Width(s[0]) then 0 else Width(s[0]) + Boundary(s[Width(s[0])..], c - Width(s[0]))
  }

  lemma {:induction false} BoundaryValid(s: seq<Byte>, c: nat)
    requires ValidUtf8(s) && c <= |s|
    ensures ValidUtf8(s[..Boundary(s, c)])
    decreases |s|
  {
    if c > 0 && c >= Width(s[0]) {
      var k := Width(s[0]);
      BoundaryValid(s[k..], c - k);
      ValidPrefix(s, k, Boundary(s[k..], c - k));
    }
  }

  lemma ValidPrefix(s: seq<Byte>, k: nat, n: nat)
    requires |s| > 0 && k == Width(s[0]) && k + n <= |s| && IsRune(s[..k]) && ValidUtf8(s[k..][..n])
    ensures ValidUtf8(s[..k + n])
  {
    assert s[..k + n][..k] == s[..k];
    assert s[..k + n][k..] == s[k..][..n];
  }

  lemma {:induction false} LastStartAppend(a: seq<Byte>, b: seq<Byte>)
    requires |b| > 0 && RuneStart(b[0])
    ensures LastStart(a + b) == |a| + LastStart(b) && LastStart(b) > 0
  {
    if !RuneStart(b[|b| - 1]) {
      assert (a + b)[..|a + b| - 1] == a + b[..|b| - 1];
      LastStartAppend(a, b[..|b| - 1]);
    }
  }

  lemma TrimAppend(a: seq<Byte>, b: seq<Byte>)
    requires |b| > 0 && RuneStart(b[0])
    ensures TrimLength(a + b) == |a| + TrimLength(b)
  {
    LastStartAppend(a, b);
    assert (a + b)[|a| + LastStart(b) - 1..] == b[LastStart(b) - 1..];
  }

  /** A whole rune is kept, and a rune cut short is dropped. */
  lemma TrimRune(r: seq<Byte>, c: nat)
    requires IsRune(r) && 0 < c <= |r|
    ensures TrimLength(r[..c]) == if c == |r| then c else 0
  {
    var s := r[..c];
    assert s[0] == r[0] && RuneStart(s[0]);
    assert forall i :: 1 <= i < c ==> !RuneStart(s[i]);
    assert LastStart(s) == 1;
    assert s[0..] == s;
  }

  /** A cut past the first rune trims like the cut of what follows it. */
  lemma TrimPastRune(s: seq<Byte>, k: nat, c: nat)
    requires ValidUtf8(s) && |s| > 0 && k == Width(s[0]) && k < c <= |s|
    ensures TrimLength(s[..c]) == k + TrimLength(s[k..][..c - k])
  {
    var r, rest := s[..k], s[k..][..c - k];
    assert s[..c] == r + rest;
    assert rest[0] == s[k..][0];
    TrimAppend(r, rest);
  }

  lemma TrimInRune(s: seq<Byte>, k: nat, c: nat)
    requires ValidUtf8(s) && |s| > 0 && k == Width(s[0]) && 0 < c <= k
    ensures TrimLength(s[..c]) == if c == k then c else 0
  {
    TrimRune(s[..k], c);
    assert s[..c] == s[..k][..c];
  }

  /** Cutting valid text anywhere and trimming leaves exactly the runes that were whole. */
  lemma {:induction false} TrimIsBoundary(s: seq<Byte>, c: nat)
    requires ValidUtf8(s) && c <= |s|
    ensures TrimLength(s[..c]) == Boundary(s, c)
    decreases |s|
  {
    if c > 0 {
      var k := Width(s[0]);
      if c <= k {
        TrimInRune(s, k, c);
      } else {
        TrimPastRune(s, k, c);
        TrimIsBoundary(s[k..], c - k);
      }
    }
  }

  /** Trimming a cut of valid text gives valid text at most three bytes shorter, and a whole text stays whole. */
  lemma TrimmedIsValid(s: seq<Byte>, c: nat)
    requires ValidUtf8(s) && c <= |s|
    ensures var n := TrimLength(s[..c]); n <= c <= n + 3 && ValidUtf8(s[..n])
    ensures TrimLength(s) == |s|
  {
    TrimIsBoundary(s, c);
    BoundaryValid(s, c);
    TrimIsBoundary(s, |s|);
    assert s[..|s|] == s;
    WholeBoundary(s);
  }

  lemma {:induction false} WholeBoundary(s: seq<Byte>)
    requires ValidUtf8(s)
    ensures Boundary(s, |s|) == |s|
    decreases |s|
  {
    if s != [] {
      WholeBoundary(s[Width(s[0])..]);
    }
  }

  /** No longer prefix within the cut is valid. */
  lemma {:induction false} BoundaryIsLongest(s: seq<Byte>, c: nat, m: nat)
    requires ValidUtf8(s) && m <= c <= |s| && ValidUtf8(s[..m])
    ensures m <= Boundary(s, c)
    decreases |s|
  {
    if m > 0 {
      var k := Width(s[0]);
      assert s[..m][k..] == s[k..][..m - k];
      BoundaryIsLongest(s[k..], c - k, m - k);
    }
  }

  /** An ASCII byte always stands between runes. */
  lemma {:induction false} ValidAround(s: seq<Byte>, i: nat)
    requires ValidUtf8(s) && i < |s| && s[i] < 0x80
    ensures ValidUtf8(s[..i]) && ValidUtf8(s[i + 1..])
    decreases |s|
  {
    var k := Width(s[0]);
    if i < k {
      assert s[..k][i] == s[i];
      assert i == 0;
    } else {
      ValidAround(s[k..], i - k);
      assert s[k..][i - k + 1..] == s[i + 1..];
      ValidPrefix(s, k, i - k);
    }
  }
}
