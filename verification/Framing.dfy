/**
 The frames on a sandbox's pipe: one JSON object a line (sandbox/session.js, sandbox/supervisor.js). Both ends keep
 what came of an unfinished line in a buffer with a limit; the worker wipes the sandbox when the limit trips, the
 supervisor drops what it had.
 */
module Framing {
  import opened Prelude
  import opened Lines

  const NL := '\n'

  /** The worker's and the supervisor's limit on a line. */
  const MAX_FRAME := 16 * 1024 * 1024
  const MAX_LINE := 12 * 1024 * 1024

  /** What an end received: the lines it processed, the unfinished one, and whether its limit ever tripped. */
  datatype Received = Received(frames: seq<string>, buf: string, tripped: bool)

  const NOTHING := Received([], "", false)

  predicate Trips(buf: string, max: nat) { |buf| > max && NL !in buf }

  /** One chunk; `drops` is the supervisor, which forgets the buffer when the limit trips. */
  function Chunk(r: Received, chunk: string, max: nat, drops: bool): Received {
    var buf := r.buf + chunk;
    if Trips(buf, max) then Received(r.frames, if drops then "" else buf, true)
    else Received(r.frames + Complete(buf, NL), Tail(buf, NL), r.tripped)
  }

  function Chunks(chunks: seq<string>, max: nat, drops: bool): Received {
    if chunks == [] then NOTHING
        else Chunk(Chunks(chunks[..|chunks| - 1], max, drops), chunks[|chunks| - 1], max, drops)
  }

  function Concat(chunks: seq<string>): string {
    if chunks == [] then "" else Concat(chunks[..|chunks| - 1]) + chunks[|chunks| - 1]
  }

  // ---------------------------------------------------------------- the reader

  class Reader {
    const max: nat
    const drops: bool
    var buf: string
    var frames: seq<string>
    var tripped: bool

    function View(): Received
      reads this
    {
      Received(frames, buf, tripped)
    }

    constructor (max: nat, drops: bool)
      ensures View() == NOTHING && this.max == max && this.drops == drops
    {
      this.max, this.drops := max, drops;
      buf, frames, tripped := "", [], false;
    }

    /** `on('data')` */
    method OnData(chunk: string)
      modifies this
      ensures View() == Chunk(old(View()), chunk, max, drops)
    {
      buf := buf + chunk;
      if |buf| > max && NL !in buf {
        tripped := true;
        if drops { buf := ""; }
        return;
      }
      ghost var all := buf;
      while NL in buf
        invariant frames + Complete(buf, NL) == old(frames) + Complete(all, NL) && Tail(buf, NL) == Tail(all, NL)
        invariant tripped == old(tripped)
        decreases |buf|
      {
        var i := First(buf, NL);
        var line, rest := buf[..i], buf[i + 1..];
        assert buf == line + [NL] + rest;
        CompleteCons(line, rest, NL);
        Moved(frames, line, Complete(rest, NL));
        buf := rest;
        frames := frames + [line];
      }
    }
  }

  lemma Moved(a: seq<string>, x: string, b: seq<string>)
    ensures a + ([x] + b) == a + [x] + b
  {
  }

  // ---------------------------------------------------------------- any cutting into chunks

  /** No line, finished or not, is longer than the limit. */
  ghost predicate Fits(s: string, max: nat) {
    (forall f :: f in Complete(s, NL) ==> |f| <= max) && |Tail(s, NL)| <= max
  }

  /** What was received so far is exactly the complete lines and the unfinished one. */
  ghost predicate Exact(r: Received, s: string) { r == Received(Complete(s, NL), Tail(s, NL), false) }

  lemma ChunkExact(r: Received, s: string, chunk: string, max: nat, drops: bool)
    requires Exact(r, s) && !Trips(r.buf + chunk, max)
    ensures Exact(Chunk(r, chunk, max, drops), s + chunk)
  {
    Append(s, chunk, NL);
  }

  /** A buffer without a newline is the unfinished line, so it is within the limit when that is. */
  lemma NoTrip(r: Received, s: string, chunk: string, max: nat)
    requires Exact(r, s) && Fits(s + chunk, max)
    ensures !Trips(r.buf + chunk, max)
  {
    Append(s, chunk, NL);
    if NL !in r.buf + chunk { NoLine(r.buf + chunk); }
  }

  lemma NoLine(s: string)
    requires NL !in s
    ensures Complete(s, NL) == [] && Tail(s, NL) == s
  {
  }

  /** The beginning of a stream that fits: its complete lines are lines of the stream, its last one begins one. */
  lemma BeginFits(s: string, more: string, max: nat)
    requires Fits(s + more, max)
    ensures Fits(s, max)
  {
    Append(s, more, NL);
    TailBegins(Tail(s, NL), more);
    forall f | f in Complete(s, NL) ensures |f| <= max { assert f in Complete(s + more, NL); }
    var begun := Complete(Tail(s, NL) + more, NL);
    if begun != [] { assert begun[0] in Complete(s + more, NL); }
  }

  /** What follows an unfinished line makes it no shorter. */
  lemma LineEnds(t: string, line: string, rest: string)
    requires NL !in t && NL !in line
    ensures Complete(t + (line + [NL] + rest), NL) == [t + line] + Complete(rest, NL)
  {
    assert t + (line + [NL] + rest) == (t + line) + [NL] + rest;
    CompleteCons(t + line, rest, NL);
  }

  lemma TailBegins(t: string, more: string)
    requires NL !in t
    ensures if Complete(t + more, NL) == [] then |t| <= |Tail(t + more, NL)| else |t| <= |Complete(t + more, NL)[0]|
  {
    if NL in more {
      var line, rest := Uncons(more, NL);
      LineEnds(t, line, rest);
    } else {
      NoLine(t + more);
    }
  }

  /**
   However a stream whose lines fit is cut into chunks, each end processes exactly its lines, in order, and never trips.
   */
  lemma {:induction false} ChunksExact(chunks: seq<string>, max: nat, drops: bool)
    requires Fits(Concat(chunks), max)
    ensures Exact(Chunks(chunks, max, drops), Concat(chunks))
  {
    if chunks != [] {
      var before, last := chunks[..|chunks| - 1], chunks[|chunks| - 1];
      BeginFits(Concat(before), last, max);
      ChunksExact(before, max, drops);
      NoTrip(Chunks(before, max, drops), Concat(before), last, max);
      ChunkExact(Chunks(before, max, drops), Concat(before), last, max, drops);
    }
  }

  /** Frames written one a line are read back one by one, however the pipe cuts them. */
  lemma RoundTrip(frames: seq<string>, chunks: seq<string>, max: nat, drops: bool)
    requires (forall k :: 0 <= k < |frames| ==> NL !in frames[k] && |frames[k]| <= max)
    requires Concat(chunks) == Join(frames, NL)
    ensures Chunks(chunks, max, drops) == Received(frames, "", false)
  {
    CompleteJoin(frames, NL);
    forall f | f in frames ensures |f| <= max { var k :| 0 <= k < |frames| && frames[k] == f; }
    ChunksExact(chunks, max, drops);
  }

  /**
   Both ways of a sandbox's pipe, with the limits they have: what the worker sends, in lines the supervisor takes, and
   what the supervisor sends, in lines the worker takes, arrives frame by frame, and neither limit trips.
   */
  lemma BothWays(requests: seq<string>, down: seq<string>, replies: seq<string>, up: seq<string>)
    requires (forall k :: 0 <= k < |requests| ==> NL !in requests[k] && |requests[k]| <= MAX_LINE)
    requires (forall k :: 0 <= k < |replies| ==> NL !in replies[k] && |replies[k]| <= MAX_FRAME)
    requires Concat(down) == Join(requests, NL) && Concat(up) == Join(replies, NL)
    ensures Chunks(down, MAX_LINE, true) == Received(requests, "", false)
    ensures Chunks(up, MAX_FRAME, false) == Received(replies, "", false)
  {
    RoundTrip(requests, down, MAX_LINE, true);
    RoundTrip(replies, up, MAX_FRAME, false);
  }

  // ---------------------------------------------------------------- when the limit can trip

  lemma RestTooLong(s: string, line: string, rest: string, max: nat)
    requires !Fits(s, max) && |line| <= max && Complete(s, NL) == [line] + Complete(rest, NL)
    requires Tail(s, NL) == Tail(rest, NL)
    ensures !Fits(rest, max)
  {
  }

  /** A line that is too long, and what stands before and behind it. */
  ghost predicate LongAt(s: string, max: nat, a: string, f: string, b: string) {
    s == a + f + b && NL !in f && |f| > max && Tail(a, NL) == "" && (a == "" || NL in a)
  }

  lemma LongBehind(line: string, rest: string, max: nat, a: string, f: string, b: string)
    requires NL !in line && LongAt(rest, max, a, f, b)
    ensures LongAt(line + [NL] + rest, max, line + [NL] + a, f, b)
  {
    CompleteCons(line, a, NL);
    assert line + [NL] + (a + f + b) == (line + [NL] + a) + f + b;
  }

  lemma LongFirst(line: string, rest: string, max: nat)
    requires NL !in line && |line| > max
    ensures LongAt(line + [NL] + rest, max, "", line, [NL] + rest)
  {
    assert line + [NL] + rest == "" + line + ([NL] + rest);
  }

  lemma {:induction false} LongLine(s: string, max: nat) returns (a: string, f: string, b: string)
    requires !Fits(s, max)
    ensures LongAt(s, max, a, f, b)
    decreases |s|
  {
    if NL !in s {
      NoLine(s);
      a, f, b := "", s, "";
    } else {
      var line, rest := Uncons(s, NL);
      if |line| > max {
        LongFirst(line, rest, max);
        a, f, b := "", line, [NL] + rest;
      } else {
        RestTooLong(s, line, rest, max);
        var behind;
        behind, f, b := LongLine(rest, max);
        LongBehind(line, rest, max, behind, f, b);
        a := line + [NL] + behind;
      }
    }
  }

  lemma {:induction false} TrippedStays(chunks: seq<string>, more: seq<string>, max: nat, drops: bool)
    requires Chunks(chunks, max, drops).tripped
    ensures Chunks(chunks + more, max, drops).tripped
  {
    if more == [] {
      assert chunks + more == chunks;
    } else {
      TrippedStays(chunks, more[..|more| - 1], max, drops);
      assert (chunks + more)[..|chunks + more| - 1] == chunks + more[..|more| - 1];
    }
  }

  /**
   The limit trips for no way of cutting a stream exactly when each of its lines, and the unfinished one, are within it.
   */
  lemma NeverTripsIffFits(s: string, max: nat, drops: bool)
    ensures Fits(s, max) <==> forall chunks :: Concat(chunks) == s ==> !Chunks(chunks, max, drops).tripped
  {
    if Fits(s, max) {
      forall chunks | Concat(chunks) == s ensures !Chunks(chunks, max, drops).tripped {
        ChunksExact(chunks, max, drops);
      }
    } else {
      var a, f, b := LongLine(s, max);
      ThreeChunks(a, f, b, max, drops);
    }
  }

  lemma ThreeChunks(a: string, f: string, b: string, max: nat, drops: bool)
    requires NL !in f && |f| > max && Tail(a, NL) == "" && (a == "" || NL in a)
    ensures Concat([a, f, b]) == a + f + b && Chunks([a, f, b], max, drops).tripped
  {
    assert [a][..0] == [] && [a, f][..1] == [a] && [a, f, b][..2] == [a, f];
    assert Concat([a]) == a && Concat([a, f]) == a + f;
    assert "" + a == a && "" + f == f;
    assert Chunks([a], max, drops) == Chunk(NOTHING, a, max, drops);
    assert Chunks([a], max, drops).buf == "";
    assert Chunks([a, f], max, drops) == Chunk(Chunks([a], max, drops), f, max, drops);
    assert Chunks([a, f], max, drops).tripped;
    TrippedStays([a, f], [b], max, drops);
    assert [a, f] + [b] == [a, f, b];
  }

  // ---------------------------------------------------------------- behind the limit

  lemma ChunksMore(chunks: seq<string>, chunk: string, max: nat, drops: bool)
    ensures Chunks(chunks + [chunk], max, drops) == Chunk(Chunks(chunks, max, drops), chunk, max, drops)
  {
    assert (chunks + [chunk])[..|chunks|] == chunks;
  }

  /** What an end received before, and then some more. */
  ghost predicate Behind(r: Received, before: seq<string>, more: Received) {
    r.frames == before + more.frames && r.buf == more.buf && r.tripped
  }

  lemma ChunkBehind(r: Received, before: seq<string>, more: Received, chunk: string, max: nat, drops: bool)
    requires Behind(r, before, more)
    ensures Behind(Chunk(r, chunk, max, drops), before, Chunk(more, chunk, max, drops))
  {
    assert before + (more.frames + Complete(r.buf + chunk, NL)) == before + more.frames + Complete(r.buf + chunk, NL);
  }

  /**
   When the limit trips, the lines before it stand, and the unfinished one is too long: the supervisor forgets it and
   goes
   on reading as if it had just begun.
   */
  lemma {:induction false} StartsAgain(chunks: seq<string>, chunk: string, more: seq<string>, max: nat)
    requires Trips(Chunks(chunks, max, true).buf + chunk, max)
    ensures Behind(Chunks(chunks + [chunk] + more, max, true), Chunks(chunks, max, true).frames,
        Chunks(more, max, true))
  {
    if more == [] {
      ChunksMore(chunks, chunk, max, true);
      assert chunks + [chunk] + [] == chunks + [chunk];
    } else {
      var front, last := more[..|more| - 1], more[|more| - 1];
      StartsAgain(chunks, chunk, front, max);
      assert chunks + [chunk] + more == chunks + [chunk] + front + [last];
      ChunksMore(chunks + [chunk] + front, last, max, true);
      ChunkBehind(Chunks(chunks + [chunk] + front, max, true), Chunks(chunks, max, true).frames,
          Chunks(front, max, true),
          last, max, true);
    }
  }
}
