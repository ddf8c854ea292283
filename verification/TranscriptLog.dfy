/**
 The parse state of one log (engine/transcript.js `freshState` and the helpers that change it in place), proved to
 compute what TranscriptEvents says, and the read loop of `parse`.
 */
module TranscriptLog {
  import opened Prelude
  import opened Lines
  import opened TranscriptScan
  import E = TranscriptEvents

  /** JSON.parse of a line that begins with a brace, and the classification of what it holds. */
  type Reader = seq<Byte> -> Option<E.Message>

  const OPEN_BRACE: Byte := 123

  /** The message of a line, if it has one: other lines are only counted. */
  function MessageOf(read: Reader, line: seq<Byte>): Option<E.Message> {
    if line == [] || line[0] != OPEN_BRACE then None else read(line)
  }

  function Messages(read: Reader, lines: seq<seq<Byte>>): seq<Option<E.Message>> {
    if lines == [] then [] else Messages(read, lines[..|lines| - 1]) + [MessageOf(read, lines[|lines| - 1])]
  }

  lemma {:induction false} MessagesAppend(read: Reader, a: seq<seq<Byte>>, b: seq<seq<Byte>>)
    ensures Messages(read, a + b) == Messages(read, a) + Messages(read, b)
  {
    if b == [] {
      assert a + b == a;
    } else {
      MessagesAppend(read, a, b[..|b| - 1]);
      assert (a + b)[..|a + b| - 1] == a + b[..|b| - 1];
    }
  }

  /** The state a sequence of lines leaves behind. */
  function Lined(read: Reader, st: E.State, lines: seq<seq<Byte>>): (r: E.State)
    requires E.Indexed(st)
    ensures E.Indexed(r)
  {
    E.Fold(st, Messages(read, lines))
  }

  lemma LinedAppend(read: Reader, st: E.State, a: seq<seq<Byte>>, b: seq<seq<Byte>>)
    requires E.Indexed(st)
    ensures Lined(read, st, a + b) == Lined(read, Lined(read, st, a), b)
  {
    MessagesAppend(read, a, b);
    E.FoldAppend(st, Messages(read, a), Messages(read, b));
  }

  class Log {
    var offset: nat
    var line: nat
    var events: seq<E.Event>
    var byId: map<string, nat>
    var session: Option<string>
    var usage: E.Usage
    var turns: map<string, E.Usage>
    var cost: Option<real>
    /** The bytes of the file up to `offset`, as they were when they were read. */
    ghost var seen: seq<Byte>
    /** The file this state is the state of, when it has read exactly that file's complete lines. */
    ghost var whole: Option<seq<Byte>>
    const read: Reader

    function View(): E.State
      reads this
    {
      E.State(line, events, byId, session, usage, turns, cost)
    }

    ghost predicate Valid()
      reads this
    {
      && E.Indexed(View()) && |seen| == offset
      && (whole.Some? ==> UpTo(read, View(), seen, whole.value))
    }

    constructor (read: Reader)
      ensures Valid() && View() == E.FRESH && offset == 0 && whole == Some([]) && this.read == read
    {
      this.read := read;
      offset, line, events, byId, session, usage, turns, cost := 0, 0, [], map[], None, E.Usage(0, 0, 0), map[], None;
      seen, whole := [], Some([]);
    }

    /** The index of the last event of a kind (and partial, when asked). */
    method FindLast(t: E.Kind, partialOnly: bool) returns (k: Option<nat>)
      ensures k == E.LastOf(events, t, partialOnly)
    {
      var i := |events|;
      assert events[..i] == events;
      while i > 0
        invariant 0 <= i <= |events|
        invariant E.LastOf(events[..i], t, partialOnly) == E.LastOf(events, t, partialOnly)
      {
        i := i - 1;
        E.LastStep(events, i, t, partialOnly);
        if events[i].t == t && (partialOnly ==> events[i].partial) { return Some(i); }
      }
      return None;
    }

    method Push(ev: E.Event)
      requires !ev.partial
      modifies `events
      ensures View() == E.Push(old(View()), ev)
    {
      var n := |events|;
      if E.Repeats(View(), ev) { return; }
      if E.Merges(View(), ev) {
        var last := events[n - 1];
        events := events[n - 1 := last.(text := E.Last(last.text + "\n\n" + ev.text, E.MERGE_CAP))];
        return;
      }
      events := events + [ev.(i := Some(n))];
    }

    method AddTool(id: string, name: string, input: string, summary: string, n: nat)
      modifies `events, `byId
      ensures View() == E.AddTool(old(View()), id, name, input, summary, n)
    {
      var k := |events|;
      var ev := E.Plain(E.Tool, "", n).(id := E.ToolId(View(), id), name := E.Or(name, "tool"), summary := summary,
          input := E.Cut(input, E.INPUT_CAP), pending := true);
      Push(ev);
      byId := byId[ev.id := k];
    }

    method SetResult(id: string, output: string, isError: bool)
      requires E.Indexed(View())
      modifies `events
      ensures View() == E.SetResult(old(View()), id, output, isError)
    {
      if id !in byId { return; }
      var k := byId[id];
      var e := events[k];
      events := events[k := e.(output := Some(E.Cut(output, E.OUT_CAP)), pending := false, isError := isError,
          v := e.v + 1)];
    }

    method PushDelta(t: E.Kind, text: string, n: nat)
      modifies `events
      ensures View() == E.PushDelta(old(View()), t, text, n)
    {
      var k := FindLast(t, false);
      if k.Some? && events[k.value].partial {
        var e := events[k.value];
        events := events[k.value := e.(text := E.Last(e.text + text, E.MERGE_CAP), v := e.v + 1)];
        return;
      }
      events := events + [E.Plain(t, text, n).(partial := true, mid := true)];
    }

    method WholeBlock(t: E.Kind, text: string, n: nat)
      modifies `events
      ensures View() == E.WholeBlock(old(View()), t, text, n)
    {
      var k := FindLast(t, true);
      if k.Some? {
        var e := events[k.value];
        events := events[k.value := e.(text := text, partial := false, v := e.v + 1)];
      } else {
        Push(E.Plain(t, text, n));
      }
    }

    method OnBlock(b: E.Block, n: nat)
      modifies `events, `byId
      ensures View() == E.OnBlock(old(View()), b, n)
    {
      match b {
        case TextBlock(text) => if Trim(text) != "" { WholeBlock(E.Text, text, n); }
        case ThinkingBlock(text) => if text != "" { WholeBlock(E.Thinking, text, n); }
        case ToolUse(id, name, input, summary) => AddTool(id, name, input, summary, n);
      }
    }

    method OnBlocks(blocks: seq<E.Block>, n: nat)
      modifies `events, `byId
      ensures View() == E.OnBlocks(old(View()), blocks, n)
    {
      var i := 0;
      while i < |blocks|
        invariant 0 <= i <= |blocks|
        invariant View() == E.OnBlocks(old(View()), blocks[..i], n)
      {
        OnBlock(blocks[i], n);
        assert blocks[..i + 1][..i] == blocks[..i];
        i := i + 1;
      }
      assert blocks[..i] == blocks;
    }

    method OnUserBlock(b: E.UserBlock, n: nat)
      requires E.Indexed(View())
      modifies `events
      ensures View() == E.OnUserBlock(old(View()), b, n)
    {
      match b {
        case Answer(id, output, isError) => SetResult(id, output, isError);
        case Words(text) => Push(E.Plain(E.User, text, n));
      }
    }

    method OnUserBlocks(parts: seq<E.UserBlock>, n: nat)
      requires E.Indexed(View())
      modifies `events
      ensures View() == E.OnUserBlocks(old(View()), parts, n)
    {
      var i := 0;
      while i < |parts|
        invariant 0 <= i <= |parts|
        invariant View() == E.OnUserBlocks(old(View()), parts[..i], n)
      {
        OnUserBlock(parts[i], n);
        assert parts[..i + 1][..i] == parts[..i];
        i := i + 1;
      }
      assert parts[..i] == parts;
    }

    method FinalEvent(text: string, isError: bool, n: nat)
      modifies `events
      ensures View() == E.FinalEvent(old(View()), text, isError, n)
    {
      var t := Trim(text);
      if t != "" && E.SaysError(E.Last(events, 4), t) { t := ""; }
      PutFinal(t, isError, n);
    }

    method MarkAnswer(k: nat)
      requires k < |events|
      modifies `events
      ensures View() == E.SetEvent(old(View()), k, old(events)[k].(answer := true, v := old(events)[k].v + 1))
    {
      events := events[k := events[k].(answer := true, v := events[k].v + 1)];
    }

    method PutFinal(t: string, isError: bool, n: nat)
      modifies `events
      ensures View() == E.PutFinal(old(View()), t, isError, n)
    {
      var k := FindLast(E.Text, false);
      if k.Some? && t != "" && Trim(events[k.value].text) == t {
        MarkAnswer(k.value);
        Push(E.Plain(E.Final, "", n).(isError := isError));
        return;
      }
      Push(E.Plain(E.Final, t, n).(isError := isError));
    }

    method MinimaxUsage(report: Option<E.Report>)
      modifies `usage, `turns
      ensures View() == E.MinimaxUsage(old(View()), report)
    {
      if report.None? { return; }
      var key := E.Key(report.value);
      var previous := E.Known(turns, key);
      var reported := E.Reported(report.value);
      var current := E.Usage(Max(previous.input, reported.input), Max(previous.output, reported.output),
          Max(previous.cached, reported.cached));
      usage := E.Usage(usage.input + current.input - previous.input,
          usage.output + current.output - previous.output, usage.cached + current.cached - previous.cached);
      turns := turns[key := current];
    }

    method OnItem(m: E.Message, n: nat)
      requires m.Item? && E.Indexed(View())
      modifies `events, `byId
      ensures View() == E.OnItem(old(View()), m, n)
    {
      var k := OpenItem(m, n);
      FillInput(k, m.given, m.summary);
      if m.answered.Some? || m.completed {
        SetResult(m.id, if m.answered.Some? then m.answered.value else "", m.isError);
      }
    }

    method OpenItem(m: E.Message, n: nat) returns (k: nat)
      requires m.Item? && E.Indexed(View())
      modifies `events, `byId
      ensures (View(), k) == E.OpenItem(old(View()), m, n)
    {
      if m.id in byId { return byId[m.id]; }
      k := |events|;
      AddTool(m.id, m.name, if m.given.Some? then m.given.value else "", m.summary, n);
    }

    method FillInput(k: nat, given: Option<string>, summary: string)
      requires k < |events|
      modifies `events
      ensures View() == E.FillInput(old(View()), k, given, summary)
    {
      var e := events[k];
      if given.Some? && e.summary == "" {
        events := events[k := e.(input := E.Cut(given.value, E.INPUT_CAP), summary := summary, v := e.v + 1)];
      }
    }

    method OnItemStarted(m: E.Message, n: nat)
      requires m.ItemStarted?
      modifies `events, `byId
      ensures View() == E.OnItemStarted(old(View()), m, n)
    {
      var ev := E.Plain(if m.thinking then E.Thinking else E.Text, "", n).(mid := m.id != "");
      var k := if E.Merges(View(), ev) then |events| - 1 else |events|;
      Push(ev);
      byId := byId["m:" + m.id := k];
    }

    method OnItemCompleted(m: E.Message, n: nat)
      requires m.ItemCompleted? && E.Indexed(View())
      modifies `events
      ensures View() == E.OnItemCompleted(old(View()), m, n)
    {
      if "m:" + m.id in byId {
        var k := byId["m:" + m.id];
        var e := events[k];
        events := events[k := e.(text := E.Or(m.text, e.text), v := e.v + 1)];
        return;
      }
      match m.what {
        case AgentMessage => Push(E.Plain(E.Text, m.text, n));
        case Reasoning => Push(E.Plain(E.Thinking, m.text, n));
        case ToolOutput => SetResult(m.id, m.text, m.isError);
        case OtherItem =>
      }
    }

    method HandleMinimax(m: E.Message, n: nat)
      requires E.IsMinimax(m) && E.Indexed(View())
      modifies `events, `byId, `usage, `turns
      ensures View() == E.HandleMinimax(old(View()), m, n)
    {
      match m {
        case Item(_, _, _, _, _, _, _) => OnItem(m, n);
        case ItemStarted(_, _) => OnItemStarted(m, n);
        case ItemCompleted(_, _, _, _) => OnItemCompleted(m, n);
        case TurnCompleted(report) => MinimaxUsage(report);
        case ExecCompleted(report, text, isError) => MinimaxUsage(report); FinalEvent(text, isError, n);
      }
    }

    method HandlePushed(m: E.Message, n: nat)
      requires E.IsPushed(m) && E.Indexed(View())
      modifies `events, `byId, `session
      ensures View() == E.HandlePushed(old(View()), m, n)
    {
      match m {
        case Start(id) => session := Some(id); Push(E.Plain(E.Meta, "", n));
        case Said(t, text) => Push(E.Plain(t, text, n));
        case ToolCall(id, name, input, summary) => AddTool(id, name, input, summary, n);
        case ToolResult(id, output, isError) => SetResult(id, output, isError);
        case UserSaid(parts) => OnUserBlocks(parts, n);
      }
    }

    method OnResult(m: E.Message, n: nat)
      requires m.Result? && E.Indexed(View())
      modifies `events, `session, `cost
      ensures View() == E.OnResult(old(View()), m.session, m.text, m.isError, m.cost, n)
    {
      if m.session != "" { session := Some(m.session); }
      if m.cost.Some? { cost := Some((if cost.Some? then cost.value else 0.0) + m.cost.value); }
      assert View() == E.Settle(old(View()), m.session, m.cost);
      FinalEvent(m.text, m.isError, n);
    }

    /** Read one event of a harness's feed. */
    method Handle(m: E.Message, n: nat)
      requires E.Indexed(View())
      modifies `events, `byId, `session, `usage, `turns, `cost
      ensures View() == E.Handle(old(View()), m, n)
    {
      if E.IsMinimax(m) {
        HandleMinimax(m, n);
      } else if E.IsPushed(m) {
        HandlePushed(m, n);
      } else if m.Delta? {
        PushDelta(if m.thinking then E.Thinking else E.Text, m.text, n);
      } else if m.Assistant? {
        usage := E.Add(usage, m.spent);
        OnBlocks(m.blocks, n);
      } else if m.Result? {
        OnResult(m, n);
      } else if m.Spent? {
        usage := E.Add(usage, m.spent);
      }
    }

    /** One line: it is counted, and handled when it holds a message. */
    method TakeLine(text: seq<Byte>)
      requires E.Indexed(View())
      modifies `line, `events, `byId, `session, `usage, `turns, `cost
      ensures View() == E.Line(old(View()), MessageOf(read, text))
    {
      var m := MessageOf(read, text);
      line := line + 1;
      assert View() == E.Counted(old(View()));
      if m.Some? { Handle(m.value, line); }
    }

    /** The lines of one chunk, or of a whole text, one after the other. */
    method TakeLines(lines: seq<seq<Byte>>)
      requires E.Indexed(View())
      modifies `line, `events, `byId, `session, `usage, `turns, `cost
      ensures E.Indexed(View()) && View() == Lined(read, old(View()), lines)
    {
      var i := 0;
      while i < |lines|
        invariant 0 <= i <= |lines|
        invariant E.Indexed(View()) && View() == Lined(read, old(View()), lines[..i])
      {
        TakeLine(lines[i]);
        TakenOneMore(read, old(View()), lines, i);
        i := i + 1;
      }
      assert lines[..i] == lines;
    }

    /** The read loop: turn by turn, until a turn finds no newline in what is left. */
    method ReadChunks(disk: seq<Byte>)
      requires E.Indexed(View()) && offset <= |disk|
      modifies `offset, `line, `events, `byId, `session, `usage, `turns, `cost
      ensures E.Indexed(View()) && offset == old(offset) + Behind(disk, old(offset)).consumed
      ensures View() == Lined(read, old(View()), Behind(disk, old(offset)).lines)
    {
      ghost var all := Behind(disk, offset);
      ghost var done: seq<seq<Byte>> := [];
      while offset < |disk|
        invariant E.Indexed(View()) && old(offset) <= offset <= |disk|
        invariant View() == Lined(read, old(View()), done)
        invariant Turn(all, old(offset), Behind(disk, offset), offset, done)
      {
        var more, lines, next := ReadChunk(disk, offset);
        LinedAppend(read, old(View()), done, lines);
        TurnAgain(all, old(offset), Behind(disk, offset), offset, Behind(disk, next), next, done, lines);
        TakeLines(lines);
        offset := next;
        done := done + lines;
        if !more { break; }
      }
      if offset == |disk| { NothingBehind(disk); }
      assert done + [] == done;
    }

    /** Take what was added to a file that still begins with the lines already read. */
    method ReadFile(disk: seq<Byte>)
      requires Valid() && offset <= |disk|
      modifies this
      ensures Valid() && ReadOn(read, old(View()), old(offset), disk, View(), offset)
      ensures Fits(disk) && old(whole).Some? && Stable(old(whole).value, NEWLINE) <= disk ==> whole == Some(disk)
    {
      ReadChunks(disk);
      seen := disk[..offset];
      if Fits(disk) && whole.Some? && Stable(whole.value, NEWLINE) <= disk {
        ResumeExact(read, whole.value, disk, View(), offset);
        whole := Some(disk);
      } else {
        whole := None;
      }
    }

    /** There is nothing to take from a file that ends where the state does. */
    ghost method NothingAdded(disk: seq<Byte>)
      requires Valid() && offset == |disk|
      modifies `whole
      ensures Valid() && ReadOn(read, View(), offset, disk, View(), offset)
      ensures old(whole).Some? && Stable(old(whole).value, NEWLINE) <= disk ==> whole == Some(disk)
    {
      assert disk[offset..] == [];
      if whole.Some? && seen <= disk {
        NothingNew(read, View(), seen, whole.value, disk);
        whole := Some(disk);
      }
    }
  }

  /**
   A log has read on from an earlier view and offset to where the file's complete lines end, as the read loop does it.
   */
  ghost predicate ReadOn(read: Reader, before: E.State, from: nat, disk: seq<Byte>, after: E.State, offset: nat)
    requires E.Indexed(before) && from <= |disk|
  {
    after == Lined(read, before, Behind(disk, from).lines) && offset == from + Behind(disk, from).consumed
  }

  /** The state of exactly the complete lines of a file. */
  function WholeLines(read: Reader, disk: seq<Byte>): E.State { Lined(read, E.FRESH, Complete(disk, NEWLINE)) }

  lemma OneLine(read: Reader, st: E.State, line: seq<Byte>, m: Option<E.Message>, r: E.State)
    requires E.Indexed(st) && m == MessageOf(read, line) && r == Lined(read, st, [line])
    ensures r == E.Line(st, m)
  {
    assert Messages(read, [line]) == [m] by { assert [line][..0] == []; }
    OneMessage(st, m, r);
  }

  lemma OneMessage(st: E.State, m: Option<E.Message>, r: E.State)
    requires E.Indexed(st) && r == E.Fold(st, [m])
    ensures r == E.Line(st, m)
  {
    assert [m][..0] == [];
  }

  lemma FirstWords(st: E.State, words: string, r: E.State)
    requires E.Indexed(st) && st.events == [] && r == E.Line(st, Some(E.Said(E.User, words)))
    ensures |r.events| == 1
  {
    WordsPushed(E.Counted(st), words, st.line + 1, r);
  }

  lemma WordsPushed(st: E.State, words: string, n: nat, r: E.State)
    requires E.Indexed(st) && st.events == [] && r == E.Handle(st, E.Said(E.User, words), n)
    ensures |r.events| == 1
  {
    assert r == E.Push(st, E.Plain(E.User, words, n));
  }

  /** So what a line of exactly one chunk says is not in the transcript: here the words of a user. */
  lemma MessageLost(read: Reader, line: seq<Byte>, words: string, disk: seq<Byte>)
    requires |line| == CHUNK && line[0] == OPEN_BRACE && NEWLINE !in line && read(line) == Some(E.Said(E.User, words))
    requires disk == line + [NEWLINE]
    ensures ReadOn(read, E.FRESH, 0, disk, Lined(read, E.FRESH, [[]]), |disk|)
    ensures Lined(read, E.FRESH, [[]]).events == [] && |WholeLines(read, disk).events| == 1
  {
    LongLineLost(line);
    ScanEnds(line, disk);
    NothingSaid(read, E.FRESH, [], Lined(read, E.FRESH, [[]]));
    WordsSaid(read, E.FRESH, line, words, WholeLines(read, disk));
  }

  lemma NothingSaid(read: Reader, st: E.State, line: seq<Byte>, r: E.State)
    requires E.Indexed(st) && MessageOf(read, line) == None && r == Lined(read, st, [line])
    ensures r.events == st.events
  {
    OneLine(read, st, line, None, r);
  }

  lemma WordsSaid(read: Reader, st: E.State, line: seq<Byte>, words: string, r: E.State)
    requires E.Indexed(st) && st.events == [] && MessageOf(read, line) == Some(E.Said(E.User, words))
        && r == Lined(read, st, [line])
    ensures |r.events| == 1
  {
    OneLine(read, st, line, Some(E.Said(E.User, words)), r);
    FirstWords(st, words, r);
  }

  lemma ScanEnds(line: seq<Byte>, disk: seq<Byte>)
    requires |line| == CHUNK && NEWLINE !in line && disk == line + [NEWLINE]
    ensures Behind(disk, 0) == Scanned([[]], |disk|)
  {
    assert disk[0..] == disk;
    LongLineLost(line);
  }

  /** A view has read exactly the complete lines of a file, and these bytes of it. */
  ghost predicate UpTo(read: Reader, view: E.State, seen: seq<Byte>, disk: seq<Byte>) {
    view == WholeLines(read, disk) && seen == Stable(disk, NEWLINE)
  }

  /** Reading on behind complete lines is as good as reading the whole file at once. */
  lemma ResumeExact(read: Reader, before: seq<Byte>, disk: seq<Byte>, after: E.State, offset: nat)
    requires Fits(disk) && Stable(before, NEWLINE) <= disk
    requires ReadOn(read, WholeLines(read, before), |Stable(before, NEWLINE)|, disk, after, offset)
    ensures offset <= |disk| && UpTo(read, after, disk[..offset], disk)
  {
    RestExact(before, disk, Behind(disk, |Stable(before, NEWLINE)|));
    LinedAppend(read, E.FRESH, Complete(before, NEWLINE), Behind(disk, |Stable(before, NEWLINE)|).lines);
  }

  /** What the loop hands on behind complete lines, and where it stops. */
  lemma RestExact(before: seq<Byte>, disk: seq<Byte>, scanned: Scanned)
    requires Fits(disk) && Stable(before, NEWLINE) <= disk && scanned == Behind(disk, |Stable(before, NEWLINE)|)
    ensures Complete(disk, NEWLINE) == Complete(before, NEWLINE) + scanned.lines
    ensures |Stable(disk, NEWLINE)| == |Stable(before, NEWLINE)| + scanned.consumed
  {
    var a := Stable(before, NEWLINE);
    var rest := disk[|a|..];
    assert disk == a + rest;
    RestFits(before, disk, rest);
    ExactIffFits(rest);
  }

  /** Behind complete lines the rest of a file is a file of its own. */
  lemma RestFits(before: seq<Byte>, disk: seq<Byte>, rest: seq<Byte>)
    requires Fits(disk) && disk == Stable(before, NEWLINE) + rest
    ensures Fits(rest) && Complete(disk, NEWLINE) == Complete(before, NEWLINE) + Complete(rest, NEWLINE)
    ensures |Stable(disk, NEWLINE)| == |Stable(before, NEWLINE)| + |Stable(rest, NEWLINE)|
  {
    StableLines(before, NEWLINE);
    AppendStable(Stable(before, NEWLINE), rest);
    assert [] + rest == rest;
  }

  /** A file that ends where its complete lines did end is those lines. */
  lemma NothingNew(read: Reader, view: E.State, seen: seq<Byte>, before: seq<Byte>, disk: seq<Byte>)
    requires UpTo(read, view, seen, before) && seen <= disk && |disk| == |seen|
    ensures UpTo(read, view, seen, disk)
  {
    StableLines(before, NEWLINE);
    assert disk == seen;
    StableLines(disk, NEWLINE);
  }

  /** What is read from one offset is `lines` and then what is read from a later one. */
  ghost predicate Turn(all: Scanned, from: nat, rest: Scanned, offset: nat, lines: seq<seq<Byte>>) {
    all.lines == lines + rest.lines && from + all.consumed == offset + rest.consumed
  }

  /** What the loop reads from an offset on. */
  ghost function Behind(disk: seq<Byte>, offset: nat): Scanned
    requires offset <= |disk|
  {
    Scan(disk[offset..])
  }

  /**
   One turn of the read loop: the lines to handle and the next offset; `more` is false while the last line is being
   written.
   */
  method ReadChunk(disk: seq<Byte>, offset: nat) returns (more: bool, lines: seq<seq<Byte>>, next: nat)
    requires offset < |disk|
    ensures offset <= next <= |disk| && (more ==> offset < next)
    ensures Turn(Behind(disk, offset), offset, Behind(disk, next), next, lines)
    ensures !more ==> Behind(disk, next) == Scanned([], 0)
  {
    var buf := ChunkAt(disk, offset);
    var end := LastIndexOf(buf);
    if end >= 0 {
      more, next := true, offset + end + 1;
      lines := Split(buf[..end], NEWLINE);
      ChunkRead(disk, offset, end, next, lines);
    } else if |buf| == |disk| - offset {
      more, lines, next := false, [], offset;           // no newline behind the offset
      NothingRead(disk, offset);
    } else {
      more, lines, next := true, [], offset + |buf|;    // a whole chunk without a newline
      ChunkSkipped(disk, offset);
    }
  }

  lemma TurnAgain(all: Scanned, from: nat, mid: Scanned, at: nat, rest: Scanned, offset: nat, done: seq<seq<Byte>>,
        lines: seq<seq<Byte>>)
    requires Turn(all, from, mid, at, done) && Turn(mid, at, rest, offset, lines)
    ensures Turn(all, from, rest, offset, done + lines)
  {
    assert done + (lines + rest.lines) == done + lines + rest.lines;
  }

  lemma NothingBehind(disk: seq<Byte>)
    ensures Behind(disk, |disk|) == Scanned([], 0)
  {
  }

  /** The next chunk of a file from an offset. */
  function ChunkAt(disk: seq<Byte>, offset: nat): (r: seq<Byte>)
    requires offset <= |disk|
    ensures |r| == Min(|disk| - offset, CHUNK)
  {
    disk[offset..offset + Min(|disk| - offset, CHUNK)]
  }

  lemma ChunkAtRest(disk: seq<Byte>, offset: nat)
    requires offset <= |disk|
    ensures ChunkAt(disk, offset) == disk[offset..][..Min(|disk| - offset, CHUNK)]
  {
  }

  lemma NothingRead(disk: seq<Byte>, offset: nat)
    requires offset < |disk| && |disk| - offset <= CHUNK && LastIndexOf(ChunkAt(disk, offset)) < 0
    ensures Behind(disk, offset) == Scanned([], 0)
  {
    ChunkAtRest(disk, offset);
    var rest := disk[offset..];
    assert rest[..|rest|] == rest;
  }

  lemma ChunkSkipped(disk: seq<Byte>, offset: nat)
    requires |disk| - offset > CHUNK && LastIndexOf(ChunkAt(disk, offset)) < 0
    ensures Turn(Behind(disk, offset), offset, Behind(disk, offset + CHUNK), offset + CHUNK, [])
  {
    ChunkAtRest(disk, offset);
    assert disk[offset..][CHUNK..] == disk[offset + CHUNK..];
    ScanSkips(disk[offset..]);
  }

  lemma ChunkRead(disk: seq<Byte>, offset: nat, end: nat, next: nat, lines: seq<seq<Byte>>)
    requires offset < |disk| && end == LastIndexOf(ChunkAt(disk, offset)) && next == offset + end + 1
    requires lines == Split(ChunkAt(disk, offset)[..end], NEWLINE)
    ensures Turn(Behind(disk, offset), offset, Behind(disk, next), next, lines)
  {
    var rest := disk[next..];
    SlicesAgree(disk, offset, end);
    ChunkAtRest(disk, offset);
    ScanTakesAs(disk[offset..], ChunkAt(disk, offset), end, ChunkAt(disk, offset)[..end], rest);
    assert Scan(disk[offset..]).lines == lines + Scan(rest).lines;
  }

  lemma SlicesAgree(disk: seq<Byte>, offset: nat, end: nat)
    requires offset <= |disk| && end < |ChunkAt(disk, offset)|
    ensures disk[offset..][..end] == ChunkAt(disk, offset)[..end]
    ensures disk[offset..][end + 1..] == disk[offset + end + 1..]
  {
  }

  lemma TakenOneMore(read: Reader, st: E.State, lines: seq<seq<Byte>>, i: nat)
    requires i < |lines| && E.Indexed(st)
    ensures Lined(read, st, lines[..i + 1]) == E.Line(Lined(read, st, lines[..i]), MessageOf(read, lines[i]))
  {
    assert lines[..i + 1][..i] == lines[..i];
  }
}
