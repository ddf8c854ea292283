/**
 sandbox/supervisor.js `exec`: a command's output up to a cap, and one exit; and what sandbox/session.js `exec`, which
 has a cap of its own for each of the two streams, makes of it.
 */
module Supervisor {
  import opened Prelude

  const DEFAULT_OUTPUT := 1024 * 1024

  datatype Frame = Out(fd: nat, data: seq<Byte>) | Exit(timedOut: bool, truncated: bool)

  datatype State = State(sent: nat, truncated: bool, timedOut: bool, finished: bool, frames: seq<Frame>)

  /** `Ends` is any of the events after which a command has ended: an error, the close, or a moment after the exit. */
  datatype Action = Data(fd: nat, chunk: seq<Byte>) | TimesOut | Ends

  const START := State(0, false, false, false, [])

  /** The cap of a command: what was asked for, never more than eight times the default. */
  function CapFor(asked: int): int { Min(if asked == 0 then DEFAULT_OUTPUT else asked, 8 * DEFAULT_OUTPUT) }

  // ---------------------------------------------------------------- the steps

  function Step(s: State, a: Action, max: int): State {
    match a
    case Data(fd, chunk) =>
      if s.sent >= max then s.(truncated := true)
      else
        var part := if |chunk| + s.sent > max then chunk[..max - s.sent] else chunk;
        s.(truncated := s.truncated || |part| < |chunk|, sent := s.sent + |part|, frames := s.frames + [Out(fd, part)])
    case TimesOut => if s.finished then s else s.(timedOut := true)      // the timer is cleared at the end
    case Ends => if s.finished then s else s.(finished := true, frames := s.frames + [Exit(s.timedOut, s.truncated)])
  }

  function Run(actions: seq<Action>, max: int): State {
    if actions == [] then START else Step(Run(actions[..|actions| - 1], max), actions[|actions| - 1], max)
  }

  class Command {
    const max: int
    var sent: nat
    var truncated: bool
    var timedOut: bool
    var finished: bool
    var frames: seq<Frame>

    function View(): State
      reads this
    {
      State(sent, truncated, timedOut, finished, frames)
    }

    constructor (asked: int)
      ensures View() == START && max == CapFor(asked)
    {
      max := Min(if asked == 0 then DEFAULT_OUTPUT else asked, 8 * DEFAULT_OUTPUT);
      sent, truncated, timedOut, finished, frames := 0, false, false, false, [];
    }

    method OnData(fd: nat, chunk: seq<Byte>)
      modifies `sent, `truncated, `frames
      ensures View() == Step(old(View()), Data(fd, chunk), max)
    {
      if sent >= max { truncated := true; return; }
      var part := if |chunk| + sent > max then chunk[..max - sent] else chunk;
      if |part| < |chunk| { truncated := true; }
      sent := sent + |part|;
      frames := frames + [Out(fd, part)];
    }

    method OnTimeout()
      modifies `timedOut
      ensures View() == Step(old(View()), TimesOut, max)
    {
      if !finished { timedOut := true; }
    }

    method Finish()
      modifies `finished, `frames
      ensures View() == Step(old(View()), Ends, max)
    {
      if finished { return; }
      finished := true;
      frames := frames + [Exit(timedOut, truncated)];
    }
  }

  // ---------------------------------------------------------------- what is forwarded

  /** Bytes with the stream they came on. */
  type Tagged = seq<(nat, Byte)>

  function Tag(fd: nat, data: seq<Byte>): Tagged { seq(|data|, i requires 0 <= i < |data| => (fd, data[i])) }

  /** Everything the command wrote, as the two streams interleaved. */
  function Given(actions: seq<Action>): Tagged {
    if actions == [] then []
    else
      var a := actions[|actions| - 1];
      Given(actions[..|actions| - 1]) + if a.Data? then Tag(a.fd, a.chunk) else []
  }

  function Forwarded(frames: seq<Frame>): Tagged {
    if frames == [] then []
    else
      var f := frames[|frames| - 1];
      Forwarded(frames[..|frames| - 1]) + if f.Out? then Tag(f.fd, f.data) else []
  }

  function Take<T>(s: seq<T>, n: int): seq<T> { if n <= 0 then [] else if n >= |s| then s else s[..n] }

  lemma ForwardedMore(frames: seq<Frame>, f: Frame)
    ensures Forwarded(frames + [f]) == Forwarded(frames) + if f.Out? then Tag(f.fd, f.data) else []
  {
    assert (frames + [f])[..|frames|] == frames;
  }

  lemma TakeAppend<T>(a: seq<T>, b: seq<T>, n: int)
    ensures Take(a + b, n) == Take(a, n) + Take(b, n - |a|)
  {
  }

  lemma TagTake(fd: nat, data: seq<Byte>, n: int)
    ensures Tag(fd, Take(data, n)) == Take(Tag(fd, data), n)
  {
  }

  /** The command's output is what Node delivers: chunks that hold something. */
  predicate Solid(actions: seq<Action>) {
    forall i :: 0 <= i < |actions| ==> actions[i].Data? ==> actions[i].chunk != []
  }

  ghost predicate Capped(s: State, given: Tagged, max: int) {
    && Forwarded(s.frames) == Take(given, max) && s.sent == |Take(given, max)|
  }

  lemma DataCapped(s: State, given: Tagged, fd: nat, chunk: seq<Byte>, max: int)
    requires Capped(s, given, max)
    ensures Capped(Step(s, Data(fd, chunk), max), given + Tag(fd, chunk), max)
  {
    TakeAppend(given, Tag(fd, chunk), max);
    if s.sent >= max {
      assert Take(Tag(fd, chunk), max - |given|) == [];
      assert Take(given, max) + [] == Take(given, max);
    } else {
      assert Take(given, max) == given;
      TagTake(fd, chunk, max - s.sent);
      ForwardedMore(s.frames, Out(fd, Take(chunk, max - s.sent)));
    }
  }

  /**
   For every cap and every interleaving: what is forwarded is exactly the first bytes of the output, each on its stream.
   */
  lemma {:induction false} ForwardsFirst(actions: seq<Action>, max: int)
    ensures Capped(Run(actions, max), Given(actions), max)
  {
    if actions != [] {
      var before, a := actions[..|actions| - 1], actions[|actions| - 1];
      ForwardsFirst(before, max);
      if a.Data? {
        DataCapped(Run(before, max), Given(before), a.fd, a.chunk, max);
      } else {
        assert Given(before) + [] == Given(before);
        ForwardedMore(Run(before, max).frames, Exit(Run(before, max).timedOut, Run(before, max).truncated));
      }
    }
  }

  /** Truncation is reported exactly when there was more than the cap. */
  lemma {:induction false} TruncatedIffMore(actions: seq<Action>, max: int)
    requires Solid(actions)
    ensures Run(actions, max).truncated <==> |Given(actions)| > Max(0, max)
  {
    if actions != [] {
      var before, a := actions[..|actions| - 1], actions[|actions| - 1];
      TruncatedIffMore(before, max);
      ForwardsFirst(before, max);
      if a.Data? { assert |Tag(a.fd, a.chunk)| == |a.chunk| > 0; }
    }
  }

  function Exits(frames: seq<Frame>): nat {
    if frames == [] then 0 else Exits(frames[..|frames| - 1]) + if frames[|frames| - 1].Exit? then 1 else 0
  }

  lemma ExitsMore(frames: seq<Frame>, f: Frame)
    ensures Exits(frames + [f]) == Exits(frames) + if f.Exit? then 1 else 0
  {
    assert (frames + [f])[..|frames|] == frames;
  }

  lemma StepExits(s: State, a: Action, max: int)
    ensures Exits(Step(s, a, max).frames) == Exits(s.frames) + if a.Ends? && !s.finished then 1 else 0
  {
    var t := Step(s, a, max);
    if t.frames != s.frames { ExitsMore(s.frames, t.frames[|s.frames|]); }
  }

  /** One exit is sent however many events end a command, and none before. */
  lemma {:induction false} OneExit(actions: seq<Action>, max: int)
    ensures Run(actions, max).finished <==> Ends in actions
    ensures Exits(Run(actions, max).frames) == if Ends in actions then 1 else 0
  {
    if actions != [] {
      var n := |actions| - 1;
      OneExit(actions[..n], max);
      StepExits(Run(actions[..n], max), actions[n], max);
      EndsInLast(actions);
    }
  }

  lemma EndsInLast(actions: seq<Action>)
    requires actions != []
    ensures Ends in actions <==> Ends in actions[..|actions| - 1] || actions[|actions| - 1].Ends?
  {
    assert actions == actions[..|actions| - 1] + [actions[|actions| - 1]];
  }

  /** What happened before the first event that ended the command. */
  function BeforeEnd(actions: seq<Action>): seq<Action>
    requires Ends in actions
  {
    var front := actions[..|actions| - 1];
    if Ends in front then BeforeEnd(front) else front
  }

  lemma {:induction false} TimedOutIff(actions: seq<Action>, max: int)
    requires Ends !in actions
    ensures (Run(actions, max).timedOut <==> TimesOut in actions) && !Run(actions, max).finished
  {
    if actions != [] {
      var front := actions[..|actions| - 1];
      assert actions == front + [actions[|actions| - 1]];
      TimedOutIff(front, max);
    }
  }

  lemma {:induction false} NoExitYet(actions: seq<Action>, max: int, e: Frame)
    requires Ends !in actions && e.Exit?
    ensures e !in Run(actions, max).frames
  {
    if actions != [] {
      assert actions == actions[..|actions| - 1] + [actions[|actions| - 1]];
      NoExitYet(actions[..|actions| - 1], max, e);
    }
  }

  /**
   What the exit tells of a command is true of what happened before it: that time was up if and only if it was, and that
   output was cut if and only if there was more than the cap.
   */
  lemma {:induction false} ExitTells(actions: seq<Action>, max: int, e: Frame)
    requires Solid(actions) && e.Exit? && e in Run(actions, max).frames
    ensures Ends in actions && (e.timedOut <==> TimesOut in BeforeEnd(actions))
    ensures e.truncated <==> |Given(BeforeEnd(actions))| > Max(0, max)
  {
    var n := |actions| - 1;
    var front := actions[..n];
    assert actions == front + [actions[n]];
    if Ends in front {
      OneExit(front, max);
      assert e in Run(front, max).frames;
      ExitTells(front, max, e);
    } else {
      NoExitYet(front, max, e);
      TimedOutIff(front, max);
      TruncatedIffMore(front, max);
    }
  }

  // ---------------------------------------------------------------- the worker's side

  /** The bytes of one stream. */
  function Only(t: Tagged, fd: nat): seq<Byte> {
    if t == [] then [] else Only(t[..|t| - 1], fd) + if t[|t| - 1].0 == fd then [t[|t| - 1].1] else []
  }

  lemma {:induction false} OnlyAppend(a: Tagged, b: Tagged, fd: nat)
    ensures Only(a + b, fd) == Only(a, fd) + Only(b, fd)
  {
    if b == [] {
      assert a + b == a;
    } else {
      OnlyAppend(a, b[..|b| - 1], fd);
      assert (a + b)[..|a + b| - 1] == a + b[..|b| - 1];
    }
  }

  lemma {:induction false} OnlyTag(fd: nat, data: seq<Byte>, stream: nat)
    ensures Only(Tag(fd, data), stream) == if fd == stream then data else []
  {
    if data != [] {
      var n := |data| - 1;
      OnlyTag(fd, data[..n], stream);
      assert Tag(fd, data)[..n] == Tag(fd, data[..n]);
      assert data == data[..n] + [data[n]];
    }
  }

  /** One stream of a command as the worker keeps it, up to its cap; `size` goes on a last time past it. */
  datatype Stream = Stream(kept: seq<Byte>, size: nat)

  ghost predicate Keeps(s: Stream, given: seq<Byte>, max: int) {
    s.kept == Take(given, max) && if s.size < max then s.size == |given| else |given| >= max
  }

  lemma KeepsMore(s: Stream, given: seq<Byte>, buf: seq<Byte>, max: int)
    requires Keeps(s, given, max)
    ensures Keeps(if s.size < max then Stream(s.kept + Take(buf, max - s.size), s.size + |buf|)
        else s, given + buf, max)
  {
    TakeAppend(given, buf, max);
    if s.size >= max { assert Take(given, max) + [] == Take(given, max); }
  }

  /** What the worker keeps of the frames of one command: each stream up to its cap. */
  class Collector {
    const max: int
    var out: Stream
    var err: Stream
    ghost var seen: Tagged

    ghost predicate Valid()
      reads this
    {
      Keeps(out, Only(seen, 1), max) && Keeps(err, Only(seen, 2), max)
    }

    constructor (max: int)
      ensures Valid() && this.max == max && seen == []
    {
      this.max := max;
      out, err, seen := Stream([], 0), Stream([], 0), [];
    }

    /** `onOut`: stream 2 is the errors, anything else the output. */
    method OnOut(fd: nat, buf: seq<Byte>)
      requires Valid() && 1 <= fd <= 2
      modifies this
      ensures Valid() && seen == old(seen) + Tag(fd, buf)
    {
      StreamsMore(seen, fd, buf);
      if fd == 2 {
        KeepsMore(err, Only(seen, 2), buf, max);
        if err.size < max { err := Stream(err.kept + Take(buf, max - err.size), err.size + |buf|); }
      } else {
        KeepsMore(out, Only(seen, 1), buf, max);
        if out.size < max { out := Stream(out.kept + Take(buf, max - out.size), out.size + |buf|); }
      }
      seen := seen + Tag(fd, buf);
    }
  }

  lemma StreamsMore(seen: Tagged, fd: nat, buf: seq<Byte>)
    ensures forall stream ::
        Only(seen + Tag(fd, buf), stream) == if stream == fd then Only(seen, stream) + buf else Only(seen, stream)
  {
    forall stream ensures Only(seen + Tag(fd, buf), stream) == if stream == fd then Only(seen, stream) + buf
        else Only(seen, stream) {
      OnlyAppend(seen, Tag(fd, buf), stream);
      OnlyTag(fd, buf, stream);
    }
  }

  /**
   Both ends of one command: the frames of a run are handed to the worker's collector, which ends with both streams.
   */
  method Collect(frames: seq<Frame>, max: int) returns (stdout: seq<Byte>, stderr: seq<Byte>)
    requires forall i :: 0 <= i < |frames| ==> frames[i].Out? ==> 1 <= frames[i].fd <= 2
    ensures stdout == Take(Only(Forwarded(frames), 1), max) && stderr == Take(Only(Forwarded(frames), 2), max)
  {
    var c := new Collector(max);
    for i := 0 to |frames|
      invariant c.Valid() && fresh(c) && c.max == max && c.seen == Forwarded(frames[..i])
    {
      assert frames[..i + 1] == frames[..i] + [frames[i]];
      ForwardedMore(frames[..i], frames[i]);
      if frames[i].Out? { c.OnOut(frames[i].fd, frames[i].data); }
    }
    assert frames[..|frames|] == frames;
    stdout, stderr := c.out.kept, c.err.kept;
  }

  lemma {:induction false} OnlyShorter(t: Tagged, fd: nat)
    ensures |Only(t, fd)| <= |t|
  {
    if t != [] { OnlyShorter(t[..|t| - 1], fd); }
  }

  /** For a positive cap the worker's own caps never cut again: each stream is its share of the first bytes written. */
  lemma EndToEnd(actions: seq<Action>, asked: int, fd: nat)
    requires asked > 0
    ensures Take(Only(Forwarded(Run(actions, CapFor(asked)).frames), fd), asked)
        == Only(Take(Given(actions), CapFor(asked)), fd)
  {
    ForwardsFirst(actions, CapFor(asked));
    OnlyShorter(Take(Given(actions), CapFor(asked)), fd);
  }
}
