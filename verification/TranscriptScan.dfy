/**
 The read loop of engine/transcript.js `parse` as a function on what was added to a file: it looks at one chunk at a
 time, takes the lines up to the last newline of the chunk, and skips a whole chunk that holds no newline.
 */
module TranscriptScan {
  import opened Prelude
  import opened Lines

  const NEWLINE: Byte := 10
  const CHUNK := 4 * 1024 * 1024

  /** `buf.lastIndexOf(10)` */
  function LastIndexOf(s: seq<Byte>): (r: int)
    ensures -1 <= r < |s|
    ensures r >= 0 ==> s[r] == NEWLINE && NEWLINE !in s[r + 1..]
    ensures r < 0 ==> NEWLINE !in s
  {
    if s == [] then -1
    else if s[|s| - 1] == NEWLINE then |s| - 1
    else LastIndexOf(s[..|s| - 1])
  }

  /** The lines handed on, and how far the offset moves. */
  datatype Scanned = Scanned(lines: seq<seq<Byte>>, consumed: nat)

  function Scan(s: seq<Byte>): (r: Scanned)
    ensures r.consumed <= |s|
    decreases |s|
  {
    if s == [] then Scanned([], 0)
    else
      var len := Min(|s|, CHUNK);
      var end := LastIndexOf(s[..len]);
      if end >= 0 then
        var r := Scan(s[end + 1..]);
        Scanned(Split(s[..end], NEWLINE) + r.lines, end + 1 + r.consumed)
      else if len == |s| then Scanned([], 0)
      else
        var r := Scan(s[len..]);
        Scanned(r.lines, len + r.consumed)
  }

  /** Every complete line, its newline included, and the unfinished rest are at most one chunk. */
  ghost predicate Fits(s: seq<Byte>) {
    && (forall l :: l in Complete(s, NEWLINE) ==> |l| < CHUNK)
    && |Tail(s, NEWLINE)| <= CHUNK
  }

  /** The loop hands on exactly the complete lines and stops exactly behind them. */
  ghost predicate Exact(s: seq<Byte>) {
    SameResult(Scan(s), Complete(s, NEWLINE), |Stable(s, NEWLINE)|)
  }

  // ---------------------------------------------------------------- one chunk

  lemma {:induction false} NoNewline(s: seq<Byte>)
    requires NEWLINE !in s
    ensures LastIndexOf(s) == -1
  {
  }

  lemma SplitOff(s: seq<Byte>, e: nat)
    requires e == LastIndexOf(s)
    ensures Split(s[..e], NEWLINE) == Complete(s, NEWLINE)
    ensures Tail(s, NEWLINE) == s[e + 1..] && |Stable(s, NEWLINE)| == e + 1
  {
    var head, rest := s[..e] + [NEWLINE], s[e + 1..];
    assert s == head + rest;
    SplitBeforeLast(s[..e], NEWLINE);
    TailEndsLine(s[..e]);
    Append(head, rest, NEWLINE);
    assert [] + rest == rest;
  }

  lemma TailEndsLine(s: seq<Byte>)
    ensures Tail(s + [NEWLINE], NEWLINE) == []
  {
    Append(s, [NEWLINE], NEWLINE);
    CompleteCons(Tail(s, NEWLINE), [], NEWLINE);
    assert Tail(s, NEWLINE) + [NEWLINE] + [] == Tail(s, NEWLINE) + [NEWLINE];
  }

  /** A chunk that holds a newline is taken up to its last one; the rest is read as if the file began there. */
  lemma ChunkTaken(s: seq<Byte>, len: nat, e: nat, rest: seq<Byte>)
    requires len <= |s| && e == LastIndexOf(s[..len]) && rest == s[e + 1..]
    ensures Complete(s, NEWLINE) == Split(s[..e], NEWLINE) + Complete(rest, NEWLINE)
    ensures Tail(s, NEWLINE) == Tail(rest, NEWLINE) && |Stable(s, NEWLINE)| == e + 1 + |Stable(rest, NEWLINE)|
  {
    var a, b := s[..len], s[len..];
    assert s == a + b;
    SlicesOfParts(a, b, e);
    PartsTaken(a, b, e, a[e + 1..] + b);
  }

  lemma SlicesOfParts(a: seq<Byte>, b: seq<Byte>, e: nat)
    requires e < |a|
    ensures (a + b)[e + 1..] == a[e + 1..] + b && (a + b)[..e] == a[..e]
  {
  }

  lemma PartsTaken(a: seq<Byte>, b: seq<Byte>, e: nat, rest: seq<Byte>)
    requires e == LastIndexOf(a) && rest == a[e + 1..] + b
    ensures Complete(a + b, NEWLINE) == Split(a[..e], NEWLINE) + Complete(rest, NEWLINE)
    ensures Tail(a + b, NEWLINE) == Tail(rest, NEWLINE) && |Stable(a + b, NEWLINE)| == e + 1 + |Stable(rest, NEWLINE)|
  {
    SplitOff(a, e);
    AppendStable(a, b);
  }

  lemma AppendStable(a: seq<Byte>, b: seq<Byte>)
    ensures Complete(a + b, NEWLINE) == Complete(a, NEWLINE) + Complete(Tail(a, NEWLINE) + b, NEWLINE)
    ensures Tail(a + b, NEWLINE) == Tail(Tail(a, NEWLINE) + b, NEWLINE)
    ensures |Stable(a + b, NEWLINE)| == |Stable(a, NEWLINE)| + |Stable(Tail(a, NEWLINE) + b, NEWLINE)|
  {
    Append(a, b, NEWLINE);
  }

  /** One turn of the loop that finds a newline in its chunk. */
  lemma ScanTakes(s: seq<Byte>, len: nat)
    requires s != [] && len == Min(|s|, CHUNK) && LastIndexOf(s[..len]) >= 0
    ensures var e := LastIndexOf(s[..len]); var rest := Scan(s[e + 1..]);
            && Scan(s).lines == Split(s[..e], NEWLINE) + rest.lines && Scan(s).consumed == e + 1 + rest.consumed
  {
  }

  lemma ScanTakesAs(s: seq<Byte>, buf: seq<Byte>, end: int, head: seq<Byte>, rest: seq<Byte>)
    requires s != [] && buf == s[..Min(|s|, CHUNK)] && end == LastIndexOf(buf) && end >= 0
    requires head == s[..end] && rest == s[end + 1..]
    ensures Scan(s).lines == Split(head, NEWLINE) + Scan(rest).lines
    ensures Scan(s).consumed == end + 1 + Scan(rest).consumed
  {
    ScanTakes(s, |buf|);
  }

  /** One turn of the loop that finds none, with more of the file behind the chunk. */
  lemma ScanSkips(s: seq<Byte>)
    requires |s| > CHUNK && LastIndexOf(s[..CHUNK]) < 0
    ensures Scan(s).lines == Scan(s[CHUNK..]).lines && Scan(s).consumed == CHUNK + Scan(s[CHUNK..]).consumed
  {
  }

  // ---------------------------------------------------------------- when the loop is exact

  lemma {:induction false} JoinAppend(a: seq<seq<Byte>>, b: seq<seq<Byte>>)
    ensures Join(a + b, NEWLINE) == Join(a, NEWLINE) + Join(b, NEWLINE)
  {
    if a == [] {
      assert a + b == b;
    } else {
      JoinAppend(a[1..], b);
      assert (a + b)[1..] == a[1..] + b;
    }
  }

  /** The bytes of the complete lines are the stable part. */
  lemma JoinIsStable(s: seq<Byte>)
    ensures |Join(Complete(s, NEWLINE), NEWLINE)| == |Stable(s, NEWLINE)|
  {
    JoinComplete(s, NEWLINE);
  }

  lemma {:induction false} LineShorter(s: seq<Byte>, l: seq<Byte>)
    requires l in Complete(s, NEWLINE)
    ensures |l| < |s|
    decreases |s|
  {
    var line, rest := Uncons(s, NEWLINE);
    if l != line { LineShorter(rest, l); }
  }

  /** The handed-on lines never amount to more bytes than the offset moves. */
  lemma {:induction false} ScanWeight(s: seq<Byte>)
    ensures |Join(Scan(s).lines, NEWLINE)| <= Scan(s).consumed
    decreases |s|
  {
    if s != [] {
      var len := Min(|s|, CHUNK);
      var e := LastIndexOf(s[..len]);
      if e >= 0 {
        ScanWeight(s[e + 1..]);
        ScanTakes(s, len);
        JoinAppend(Split(s[..e], NEWLINE), Scan(s[e + 1..]).lines);
        TakenWeight(s, len);
      } else if len < |s| {
        ScanWeight(s[len..]);
        ScanSkips(s);
      }
    }
  }

  lemma TakenWeight(s: seq<Byte>, len: nat)
    requires len <= |s| && LastIndexOf(s[..len]) >= 0
    ensures |Join(Split(s[..LastIndexOf(s[..len])], NEWLINE), NEWLINE)| == LastIndexOf(s[..len]) + 1
  {
    SplitOff(s[..len], LastIndexOf(s[..len]));
    assert s[..len][..LastIndexOf(s[..len])] == s[..LastIndexOf(s[..len])];
    JoinIsStable(s[..len]);
  }

  lemma SkipNotExact(s: seq<Byte>)
    requires |s| > CHUNK && LastIndexOf(s[..CHUNK]) < 0
    ensures !Exact(s) && !Fits(s)
  {
    ScanSkips(s);
    ScanWeight(s[CHUNK..]);
    JoinIsStable(s);
    if NEWLINE in s {
      var line, rest := Uncons(s, NEWLINE);
      assert line in Complete(s, NEWLINE);
      assert s[|line|] == NEWLINE;
      assert forall i :: 0 <= i < CHUNK ==> s[i] == s[..CHUNK][i] && s[i] != NEWLINE;
    }
  }

  /** The lines taken from a chunk are shorter than a chunk. */
  lemma ShortLines(s: seq<Byte>, len: nat, e: nat, taken: seq<seq<Byte>>)
    requires len <= |s| && len <= CHUNK && e == LastIndexOf(s[..len]) && taken == Split(s[..e], NEWLINE)
    ensures forall l :: l in taken ==> |l| < CHUNK
  {
    SplitOff(s[..len], LastIndexOf(s[..len]));
    assert s[..len][..e] == s[..e];
    forall l | l in taken ensures |l| < CHUNK {
      LineShorter(s[..len], l);
    }
  }

  lemma FitsBehind(s: seq<Byte>, taken: seq<seq<Byte>>, rest: seq<Byte>)
    requires Complete(s, NEWLINE) == taken + Complete(rest, NEWLINE) && Tail(s, NEWLINE) == Tail(rest, NEWLINE)
    requires forall l :: l in taken ==> |l| < CHUNK
    ensures Fits(s) <==> Fits(rest)
  {
  }

  lemma PrefixCancels<T>(x: seq<T>, r: seq<T>, c: seq<T>)
    ensures x + r == x + c <==> r == c
  {
    assert (x + r)[|x|..] == r && (x + c)[|x|..] == c;
  }

  /** Whether the loop is exact can be told from its results alone. */
  ghost predicate SameResult(r: Scanned, lines: seq<seq<Byte>>, stable: nat) {
    r.lines == lines && r.consumed == stable
  }

  lemma SameAfterPrefix(taken: seq<seq<Byte>>, n: nat, r: Scanned, whole: Scanned, lines: seq<seq<Byte>>,
        allLines: seq<seq<Byte>>, stable: nat, allStable: nat)
    requires SameResult(whole, taken + r.lines, n + r.consumed)
    requires allLines == taken + lines && allStable == n + stable
    ensures SameResult(whole, allLines, allStable) <==> SameResult(r, lines, stable)
  {
    PrefixCancels(taken, r.lines, lines);
  }

  lemma ExactBehind(s: seq<Byte>, n: nat, taken: seq<seq<Byte>>, rest: seq<Byte>)
    requires Complete(s, NEWLINE) == taken + Complete(rest, NEWLINE)
    requires |Stable(s, NEWLINE)| == n + |Stable(rest, NEWLINE)|
    requires Scan(s).lines == taken + Scan(rest).lines && Scan(s).consumed == n + Scan(rest).consumed
    ensures Exact(s) <==> Exact(rest)
  {
    SameAfterPrefix(taken, n, Scan(rest), Scan(s), Complete(rest, NEWLINE), Complete(s, NEWLINE),
                    |Stable(rest, NEWLINE)|, |Stable(s, NEWLINE)|);
  }

  lemma NothingTaken(s: seq<Byte>)
    requires |s| <= CHUNK && LastIndexOf(s[..|s|]) < 0
    ensures Exact(s) && Fits(s)
  {
    assert s[..|s|] == s;
  }

  lemma TakenExactIffFits(s: seq<Byte>, len: nat, e: nat, taken: seq<seq<Byte>>, rest: seq<Byte>)
    requires s != [] && len == Min(|s|, CHUNK) && e == LastIndexOf(s[..len]) && taken == Split(s[..e], NEWLINE)
    requires rest == s[e + 1..]
    requires Exact(rest) <==> Fits(rest)
    ensures Exact(s) <==> Fits(s)
  {
    ScanTakes(s, len);
    ChunkTaken(s, len, e, rest);
    ShortLines(s, len, e, taken);
    FitsBehind(s, taken, rest);
    ExactBehind(s, e + 1, taken, rest);
  }

  /** The read loop loses nothing and stops at the right place if and only if lines and rest fit in a chunk. */
  lemma {:induction false} ExactIffFits(s: seq<Byte>)
    ensures Exact(s) <==> Fits(s)
    decreases |s|
  {
    var len := Min(|s|, CHUNK);
    var e := LastIndexOf(s[..len]);
    if e >= 0 {
      ExactIffFits(s[e + 1..]);
      TakenExactIffFits(s, len, e, Split(s[..e], NEWLINE), s[e + 1..]);
    } else if len == |s| {
      NothingTaken(s);
    } else {
      SkipNotExact(s);
    }
  }

  /** A line of exactly one chunk before its newline is lost: what is handed on is an empty line. */
  lemma LongLineLost(line: seq<Byte>)
    requires |line| == CHUNK && NEWLINE !in line
    ensures Scan(line + [NEWLINE]).lines == [[]] && Complete(line + [NEWLINE], NEWLINE) == [line]
  {
    var s := line + [NEWLINE];
    assert s[..CHUNK] == line && s[CHUNK..] == [NEWLINE];
    NoNewline(line);
    var one: seq<Byte> := [NEWLINE];
    assert one[..1] == one && one[..0] == [] && one[1..] == [];
    assert Scan(one).lines == Split([], NEWLINE) + Scan([]).lines;
    CompleteCons(line, [], NEWLINE);
    assert line + [NEWLINE] + [] == s;
  }
}
