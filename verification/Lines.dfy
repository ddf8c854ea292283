/**
 Newline-terminated lines in a sequence of bytes or characters: the complete lines, and the unfinished rest. Both the
 transcript reader and the sandbox's framing are specified with these.
 */
module Lines {

  function First<T(==)>(s: seq<T>, nl: T): (i: nat)
    requires nl in s
    ensures i < |s| && s[i] == nl && nl !in s[..i]
  {
    if s[0] == nl then 0 else
      assert s == [s[0]] + s[1..];
      First(s[1..], nl) + 1
  }

  /** The complete lines, without their newlines. */
  function Complete<T(==)>(s: seq<T>, nl: T): seq<seq<T>> {
    if nl !in s then [] else var i := First(s, nl); [s[..i]] + Complete(s[i + 1..], nl)
  }

  /** What follows the last newline. */
  function Tail<T(==)>(s: seq<T>, nl: T): (t: seq<T>)
    ensures nl !in t && |t| <= |s|
  {
    if nl !in s then s else Tail(s[First(s, nl) + 1..], nl)
  }

  /** The part up to and including the last newline. */
  function Stable<T(==)>(s: seq<T>, nl: T): seq<T> { s[..|s| - |Tail(s, nl)|] }

  /** The lines of JavaScript's `s.split(nl)`: the unfinished rest counts as a last line. */
  function Split<T(==)>(s: seq<T>, nl: T): seq<seq<T>> { Complete(s, nl) + [Tail(s, nl)] }

  function Join<T(==)>(lines: seq<seq<T>>, nl: T): seq<T> {
    if lines == [] then [] else lines[0] + [nl] + Join(lines[1..], nl)
  }

  lemma FirstUnique<T>(s: seq<T>, nl: T, i: nat)
    requires i < |s| && s[i] == nl && nl !in s[..i]
    ensures First(s, nl) == i
  {
    var k := First(s, nl);
    assert forall j :: 0 <= j < i ==> s[j] in s[..i];
    assert forall j :: 0 <= j < k ==> s[j] in s[..k];
  }

  /** A line in front of the rest is the first complete line. */
  lemma CompleteCons<T>(line: seq<T>, rest: seq<T>, nl: T)
    requires nl !in line
    ensures Complete(line + [nl] + rest, nl) == [line] + Complete(rest, nl)
    ensures Tail(line + [nl] + rest, nl) == Tail(rest, nl)
  {
    var s := line + [nl] + rest;
    assert s[|line|] == nl && s[..|line|] == line;
    FirstUnique(s, nl, |line|);
    assert s[|line| + 1..] == rest;
  }

  lemma Uncons<T>(s: seq<T>, nl: T) returns (line: seq<T>, rest: seq<T>)
    requires nl in s
    ensures s == line + [nl] + rest && nl !in line
    ensures Complete(s, nl) == [line] + Complete(rest, nl) && Tail(s, nl) == Tail(rest, nl)
  {
    var i := First(s, nl);
    line, rest := s[..i], s[i + 1..];
    assert s == line + [nl] + rest;
  }

  lemma AppendCons<T>(line: seq<T>, rest: seq<T>, b: seq<T>, nl: T)
    requires nl !in line
    ensures Complete(line + [nl] + rest + b, nl) == [line] + Complete(rest + b, nl)
    ensures Tail(line + [nl] + rest + b, nl) == Tail(rest + b, nl)
  {
    CompleteCons(line, rest + b, nl);
    assert line + [nl] + rest + b == line + [nl] + (rest + b);
  }

  /** Reading can stop anywhere and go on later: only the unfinished rest has to be kept. */
  lemma {:induction false} Append<T>(a: seq<T>, b: seq<T>, nl: T)
    ensures Complete(a + b, nl) == Complete(a, nl) + Complete(Tail(a, nl) + b, nl)
    ensures Tail(a + b, nl) == Tail(Tail(a, nl) + b, nl)
    decreases |a|
  {
    if nl in a {
      var line, rest := Uncons(a, nl);
      Append(rest, b, nl);
      AppendCons(line, rest, b, nl);
    }
  }

  /** Nothing is lost and nothing is invented: the lines and the rest make up the input again. */
  lemma {:induction false} JoinComplete<T>(s: seq<T>, nl: T)
    ensures Join(Complete(s, nl), nl) + Tail(s, nl) == s
    decreases |s|
  {
    if nl in s {
      var line, rest := Uncons(s, nl);
      JoinComplete(rest, nl);
      JoinCons(line, Complete(rest, nl), nl);
      assert line + [nl] + Join(Complete(rest, nl), nl) + Tail(rest, nl)
          == line + [nl] + (Join(Complete(rest, nl), nl) + Tail(rest, nl));
    }
  }

  lemma JoinCons<T>(line: seq<T>, lines: seq<seq<T>>, nl: T)
    ensures Join([line] + lines, nl) == line + [nl] + Join(lines, nl)
  {
    assert ([line] + lines)[1..] == lines;
  }

  /** The stable part has the same complete lines and no rest. */
  lemma {:induction false} StableLines<T>(s: seq<T>, nl: T)
    ensures s == Stable(s, nl) + Tail(s, nl)
    ensures Complete(Stable(s, nl), nl) == Complete(s, nl) && Tail(Stable(s, nl), nl) == []
    decreases |s|
  {
    if nl in s {
      var line, rest := Uncons(s, nl);
      StableLines(rest, nl);
      StableCons(line, rest, nl);
      CompleteCons(line, Stable(rest, nl), nl);
      assert line + [nl] + rest == line + [nl] + Stable(rest, nl) + Tail(rest, nl);
    }
  }

  lemma StableCons<T>(line: seq<T>, rest: seq<T>, nl: T)
    requires nl !in line
    ensures Stable(line + [nl] + rest, nl) == line + [nl] + Stable(rest, nl)
  {
    CompleteCons(line, rest, nl);
  }

  lemma {:induction false} CompleteJoin<T>(lines: seq<seq<T>>, nl: T)
    requires forall l :: l in lines ==> nl !in l
    ensures Complete(Join(lines, nl), nl) == lines && Tail(Join(lines, nl), nl) == []
  {
    if lines != [] {
      CompleteJoin(lines[1..], nl);
      CompleteCons(lines[0], Join(lines[1..], nl), nl);
    }
  }

  /** Splitting everything before the last newline gives exactly the complete lines. */
  lemma SplitBeforeLast<T>(s: seq<T>, nl: T)
    ensures Split(s, nl) == Complete(s + [nl], nl)
  {
    Append(s, [nl], nl);
    CompleteCons(Tail(s, nl), [], nl);
    assert Tail(s, nl) + [nl] + [] == Tail(s, nl) + [nl];
  }
}
