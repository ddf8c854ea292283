/**
 engine/adapters/codex.js `feed`: Codex's items turned into tool calls and their results. Items come started, updated
 and completed, in any order, repeated or not, some without an id; what comes out must pair.
 */
module CodexFeed {
  import opened Numerals
  import opened Prelude

  datatype Kind =
    | Reasoning
    | AgentMessage(text: string)                      // "" when it is blank
    | Problem
    | FileChange(changes: Option<seq<string>>)      // the kind of each change
    | Command(exit: Option<int>)
    | McpCall(server: string, tool: string, error: bool)
    | WebSearch
    | Collab
    | OtherItem

  datatype Phase = Started | Updated | Completed

  /** An item; `id` is "" when it has none, `t` is the name of its type. */
  datatype Item = Item(id: string, t: string, kind: Kind, failed: bool)

  datatype Line =
    | Unreadable
    | ThreadStarted(id: string)
    | TurnStarted
    | OnItem(phase: Phase, item: Item)
    | TurnCompleted
    | Fails(message: string)
    | Skipped

  datatype Event =
    | Use(id: string, name: string)
    | Answer(id: string, isError: bool)
    | Said(text: string)
    | Note
    | Close(ok: bool, text: string)

  datatype State = State(started: seq<string>, done: set<string>, lastText: string, failed: string, session: string,
        turns: nat, out: seq<Event>)

  const START := State([], {}, "", "", "", 0, [])

  // ---------------------------------------------------------------- the feed as functions


  function Emit(s: State, e: Event): State { s.(out := s.out + [e]) }

  /** `tool`: a call is announced once. */
  function Tool(s: State, id: string, name: string): State {
    if id in s.started then s else Emit(s.(started := s.started + [id]), Use(id, name))
  }

  /** `result`: it is answered once. */
  function Result(s: State, id: string, isError: bool): State {
    if id in s.done then s else Emit(s.(done := s.done + {id}), Answer(id, isError))
  }

  function Id(s: State, it: Item): string { if it.id != "" then it.id else it.t + "-" + Digits(|s.started|) }

  function NameOf(it: Item): string {
    match it.kind
    case Command(_) => "Bash"
    case McpCall(server, tool, _) => "mcp__" + (if server == "" then "mcp" else server) + "__"
      + (if tool == "" then "tool" else tool)
    case WebSearch => "WebSearch"
    case Collab => "Task"
    case _ => "codex:" + (if it.t == "" then "item" else it.t)
  }

  predicate IsError(it: Item) {
    it.failed || (it.kind.Command? && it.kind.exit.Some? && it.kind.exit.value != 0)
        || (it.kind.McpCall? && it.kind.error)
  }

  function FileTool(kind: string): string {
    if kind == "add" then "Write" else if kind == "delete" then "Delete" else "Edit"
  }

  /** The changes of a file_change item: each is a call and its answer. */
  function Changes(s: State, id: string, kinds: seq<string>, failed: bool): State {
    if kinds == [] then s
    else
      var n := |kinds| - 1;
      var c := id + ":" + Digits(n);
      Result(Tool(Changes(s, id, kinds[..n], failed), c, FileTool(kinds[n])), c, failed)
  }

  function ItemSeen(s: State, phase: Phase, it: Item, id: string): State {
    match it.kind
    case Reasoning => s
    case AgentMessage(text) => if phase.Completed? && text != "" then Emit(s.(lastText := text), Said(text)) else s
    case Problem => Emit(s, Note)
    case FileChange(changes) =>
      if phase.Completed? then Changes(s, id, if changes.Some? then changes.value else [""], it.failed) else s
    case _ => if phase.Completed? then Result(Tool(s, id, NameOf(it)), id, IsError(it)) else Tool(s, id, NameOf(it))
  }

  function LineRead(s: State, l: Line): State {
    match l
    case Unreadable => Emit(s, Note)
    case ThreadStarted(id) => Emit(s.(session := id), Note)
    case TurnStarted => s.(turns := s.turns + 1)
    case OnItem(phase, it) => ItemSeen(s, phase, it, Id(s, it))
    case TurnCompleted => Emit(s, Note)
    case Fails(message) => Emit(s.(failed := if message == "" then "error" else message), Note)
    case Skipped => s
  }

  function LinesRead(lines: seq<Line>): State {
    if lines == [] then START else LineRead(LinesRead(lines[..|lines| - 1]), lines[|lines| - 1])
  }

  /** What was announced and never answered was cut off. */
  function CutOff(s: State, ids: seq<string>): State {
    if ids == [] then s
    else
      var r := CutOff(s, ids[..|ids| - 1]);
      if ids[|ids| - 1] in r.done then r else Result(r, ids[|ids| - 1], true)
  }

  const NO_RESULT := "Codex ended without a result (a limit, the sandbox or a crash: check its exit code)"

  /** `end`; a code that is not known counts as a good one. */
  function Ended(s: State, code: Option<int>): State {
    var r := CutOff(s, s.started);
    var ok := s.failed == "" && s.lastText != "" && (code.None? || code.value == 0);
    Emit(r, Close(ok, if ok then s.lastText else if s.failed != "" then s.failed else NO_RESULT))
  }

  // ---------------------------------------------------------------- the feed

  class Feed {
    var started: seq<string>
    var done: set<string>
    var lastText: string
    var failed: string
    var session: string
    var turns: nat
    var out: seq<Event>

    function View(): State
      reads this
    {
      State(started, done, lastText, failed, session, turns, out)
    }

    constructor ()
      ensures View() == START
    {
      started, done, lastText, failed, session, turns, out := [], {}, "", "", "", 0, [];
    }

    method OnTool(id: string, name: string)
      modifies `started, `out
      ensures View() == Tool(old(View()), id, name)
    {
      if id in started { return; }
      started := started + [id];
      out := out + [Use(id, name)];
    }

    method OnResult(id: string, isError: bool)
      modifies `done, `out
      ensures View() == Result(old(View()), id, isError)
    {
      if id in done { return; }
      done := done + {id};
      out := out + [Answer(id, isError)];
    }

    method OnChanges(id: string, kinds: seq<string>, failed: bool)
      modifies `started, `done, `out
      ensures View() == Changes(old(View()), id, kinds, failed)
    {
      for i := 0 to |kinds|
        invariant View() == Changes(old(View()), id, kinds[..i], failed)
      {
        assert kinds[..i + 1][..i] == kinds[..i];
        var c := id + ":" + Digits(i);
        OnTool(c, FileTool(kinds[i]));
        OnResult(c, failed);
      }
      assert kinds[..|kinds|] == kinds;
    }

    method OnItemLine(phase: Phase, it: Item)
      modifies `started, `done, `lastText, `out
      ensures View() == LineRead(old(View()), OnItem(phase, it))
    {
      var id := Id(View(), it);
      if it.kind.Reasoning? { return; }
      if it.kind.AgentMessage? {
        if phase.Completed? && it.kind.text != "" {
          lastText := it.kind.text;
          out := out + [Said(it.kind.text)];
        }
        return;
      }
      if it.kind.Problem? { out := out + [Note]; return; }
      if it.kind.FileChange? {
        if phase.Completed? { OnChanges(id, if it.kind.changes.Some? then it.kind.changes.value else [""], it.failed); }
        return;
      }
      OnTool(id, NameOf(it));
      if phase.Completed? { OnResult(id, IsError(it)); }
    }

    method OnLine(l: Line)
      modifies this
      ensures View() == LineRead(old(View()), l)
    {
      match l {
        case Unreadable => out := out + [Note];
        case ThreadStarted(id) => session := id; out := out + [Note];
        case TurnStarted => turns := turns + 1;
        case OnItem(phase, it) => OnItemLine(phase, it);
        case TurnCompleted => out := out + [Note];
        case Fails(message) => failed := if message == "" then "error" else message; out := out + [Note];
        case Skipped =>
      }
    }

    method End(code: Option<int>)
      modifies `done, `out
      ensures View() == Ended(old(View()), code)
    {
      for i := 0 to |started|
        invariant View() == CutOff(old(View()), started[..i])
      {
        assert started[..i + 1][..i] == started[..i];
        if started[i] !in done { OnResult(started[i], true); }
      }
      assert started[..|started|] == started;
      var ok := failed == "" && lastText != "" && (code.None? || code.value == 0);
      out := out + [Close(ok, if ok then lastText else if failed != "" then failed else NO_RESULT)];
    }
  }

  // ---------------------------------------------------------------- the pairing

  function Uses(out: seq<Event>): set<string> {
    if out == [] then {} else Uses(out[..|out| - 1]) + if out[|out| - 1].Use? then {out[|out| - 1].id} else {}
  }

  function Answers(out: seq<Event>): set<string> {
    if out == [] then {} else Answers(out[..|out| - 1]) + if out[|out| - 1].Answer? then {out[|out| - 1].id} else {}
  }

  /** An event that may follow: a call not announced before, an answer to one that was and is not answered yet. */
  predicate MayFollow(out: seq<Event>, e: Event) {
    && (e.Use? ==> e.id !in Uses(out))
    && (e.Answer? ==> e.id in Uses(out) && e.id !in Answers(out))
    && !e.Close?
  }

  ghost predicate Paired(out: seq<Event>) {
    out == [] || (Paired(out[..|out| - 1]) && MayFollow(out[..|out| - 1], out[|out| - 1]))
  }

  /** The feed's sets are what its events say. */
  ghost predicate Inv(s: State) {
    && Paired(s.out) && (forall id :: id in s.started <==> id in Uses(s.out)) && s.done == Answers(s.out)
  }

  lemma OneMore(out: seq<Event>, e: Event)
    ensures Uses(out + [e]) == Uses(out) + (if e.Use? then {e.id} else {})
    ensures Answers(out + [e]) == Answers(out) + (if e.Answer? then {e.id} else {})
    ensures Paired(out) && MayFollow(out, e) ==> Paired(out + [e])
  {
    assert (out + [e])[..|out|] == out;
  }

  lemma EmitKeeps(s: State, e: Event)
    requires Inv(s) && !e.Use? && !e.Answer? && !e.Close?
    ensures Inv(Emit(s, e))
  {
    OneMore(s.out, e);
  }

  lemma ToolKeeps(s: State, id: string, name: string)
    requires Inv(s)
    ensures Inv(Tool(s, id, name)) && id in Tool(s, id, name).started
    ensures forall x :: x in s.started ==> x in Tool(s, id, name).started
  {
    if id !in s.started { OneMore(s.out, Use(id, name)); }
  }

  lemma ResultKeeps(s: State, id: string, isError: bool)
    requires Inv(s) && id in s.started
    ensures Inv(Result(s, id, isError)) && Result(s, id, isError).started == s.started
    ensures Result(s, id, isError).done == s.done + {id}
  {
    if id !in s.done { OneMore(s.out, Answer(id, isError)); }
  }

  lemma {:induction false} ChangesKeep(s: State, id: string, kinds: seq<string>, failed: bool)
    requires Inv(s)
    ensures Inv(Changes(s, id, kinds, failed))
  {
    if kinds != [] {
      var n := |kinds| - 1;
      var c, before := id + ":" + Digits(n), Changes(s, id, kinds[..n], failed);
      ChangesKeep(s, id, kinds[..n], failed);
      ToolKeeps(before, c, FileTool(kinds[n]));
      ResultKeeps(Tool(before, c, FileTool(kinds[n])), c, failed);
    }
  }

  lemma ItemKeeps(s: State, phase: Phase, it: Item, id: string)
    requires Inv(s)
    ensures Inv(ItemSeen(s, phase, it, id))
  {
    match it.kind
    case Reasoning =>
    case AgentMessage(text) => if phase.Completed? && text != "" { EmitKeeps(s.(lastText := text), Said(text)); }
    case Problem => EmitKeeps(s, Note);
    case FileChange(changes) =>
      if phase.Completed? { ChangesKeep(s, id, if changes.Some? then changes.value else [""], it.failed); }
    case _ =>
      ToolKeeps(s, id, NameOf(it));
      if phase.Completed? { ResultKeeps(Tool(s, id, NameOf(it)), id, IsError(it)); }
  }

  lemma LineKeeps(s: State, l: Line)
    requires Inv(s)
    ensures Inv(LineRead(s, l))
  {
    match l
    case Unreadable => EmitKeeps(s, Note);
    case ThreadStarted(id) => EmitKeeps(s.(session := id), Note);
    case TurnStarted =>
    case OnItem(phase, it) => ItemKeeps(s, phase, it, Id(s, it));
    case TurnCompleted => EmitKeeps(s, Note);
    case Fails(message) => EmitKeeps(s.(failed := if message == "" then "error" else message), Note);
    case Skipped =>
  }

  lemma {:induction false} LinesKeep(lines: seq<Line>)
    ensures Inv(LinesRead(lines))
  {
    if lines != [] {
      LinesKeep(lines[..|lines| - 1]);
      LineKeeps(LinesRead(lines[..|lines| - 1]), lines[|lines| - 1]);
    }
  }

  lemma {:induction false} CutOffKeeps(s: State, ids: seq<string>)
    requires Inv(s) && forall id :: id in ids ==> id in s.started
    ensures Inv(CutOff(s, ids)) && CutOff(s, ids).started == s.started
    ensures s.done <= CutOff(s, ids).done && forall id :: id in ids ==> id in CutOff(s, ids).done
  {
    if ids != [] {
      var n := |ids| - 1;
      assert ids == ids[..n] + [ids[n]];
      CutOffKeeps(s, ids[..n]);
      var r := CutOff(s, ids[..n]);
      if ids[n] !in r.done { ResultKeeps(r, ids[n], true); }
    }
  }

  /** Each call is announced once, and has exactly one answer, behind it; there is no answer without a call. */
  ghost predicate PairsUp(out: seq<Event>) {
    && (forall i, j :: 0 <= i < j < |out| && out[i].Use? && out[j].Use? ==> out[i].id != out[j].id)
    && (forall i, j :: 0 <= i < j < |out| && out[i].Answer? && out[j].Answer? ==> out[i].id != out[j].id)
    && (forall j ::
      0 <= j < |out| && out[j].Answer? ==> exists i :: 0 <= i < j && out[i].Use? && out[i].id == out[j].id)
    && (forall i ::
      0 <= i < |out| && out[i].Use? ==> exists j :: i < j < |out| && out[j].Answer? && out[j].id == out[i].id)
  }

  lemma {:induction false} UsesAt(out: seq<Event>, id: string)
    ensures id in Uses(out) <==> exists i :: 0 <= i < |out| && out[i].Use? && out[i].id == id
    ensures id in Answers(out) <==> exists i :: 0 <= i < |out| && out[i].Answer? && out[i].id == id
  {
    if out != [] {
      var n := |out| - 1;
      UsesAt(out[..n], id);
      assert forall i :: 0 <= i < n ==> out[..n][i] == out[i];
    }
  }

  lemma {:induction false} FollowsAt(out: seq<Event>, j: nat)
    requires Paired(out) && j < |out|
    ensures MayFollow(out[..j], out[j])
  {
    var n := |out| - 1;
    if j < n {
      FollowsAt(out[..n], j);
      assert out[..n][..j] == out[..j];
    }
  }

  lemma UsedOnce(out: seq<Event>, i: nat, j: nat)
    requires Paired(out) && i < j < |out|
    ensures out[i].Use? && out[j].Use? ==> out[i].id != out[j].id
    ensures out[i].Answer? && out[j].Answer? ==> out[i].id != out[j].id
  {
    FollowsAt(out, j);
    assert out[..j][i] == out[i];
    if out[j].Use? || out[j].Answer? { UsesAt(out[..j], out[j].id); }
  }

  lemma AnswerBehind(out: seq<Event>, j: nat)
    requires Paired(out) && j < |out| && out[j].Answer?
    ensures exists i :: 0 <= i < j && out[i].Use? && out[i].id == out[j].id
  {
    FollowsAt(out, j);
    UsesAt(out[..j], out[j].id);
    var i :| 0 <= i < j && out[..j][i].Use? && out[..j][i].id == out[j].id;
    assert out[i] == out[..j][i];
  }

  lemma UseAnswered(out: seq<Event>, i: nat)
    requires Paired(out) && i < |out| && out[i].Use? && Uses(out) <= Answers(out)
    ensures exists j :: i < j < |out| && out[j].Answer? && out[j].id == out[i].id
  {
    UsesAt(out, out[i].id);
    var j :| 0 <= j < |out| && out[j].Answer? && out[j].id == out[i].id;
    AnswerBehind(out, j);
    var k :| 0 <= k < j && out[k].Use? && out[k].id == out[j].id;
    if k < i { UsedOnce(out, k, i); } else if i < k { UsedOnce(out, i, k); }
  }

  lemma PairedPairsUp(out: seq<Event>)
    requires Paired(out) && Uses(out) <= Answers(out)
    ensures PairsUp(out)
  {
    forall i, j | 0 <= i < j < |out|
      ensures (out[i].Use? && out[j].Use? ==> out[i].id != out[j].id)
      ensures (out[i].Answer? && out[j].Answer? ==> out[i].id != out[j].id)
    {
      UsedOnce(out, i, j);
    }
    forall j | 0 <= j < |out| && out[j].Answer? ensures exists i ::
        0 <= i < j && out[i].Use? && out[i].id == out[j].id {
      AnswerBehind(out, j);
    }
    forall i | 0 <= i < |out| && out[i].Use? ensures exists j ::
        i < j < |out| && out[j].Answer? && out[j].id == out[i].id {
      UseAnswered(out, i);
    }
  }

  /** A line that completes a message, and what it says. */
  predicate Speaks(l: Line) { l.OnItem? && l.phase.Completed? && l.item.kind.AgentMessage? && l.item.kind.text != "" }

  ghost predicate LastSpeaks(lines: seq<Line>, k: nat) {
    k < |lines| && Speaks(lines[k]) && forall j :: k < j < |lines| ==> !Speaks(lines[j])
  }

  ghost predicate LastFails(lines: seq<Line>, k: nat) {
    k < |lines| && lines[k].Fails? && forall j :: k < j < |lines| ==> !lines[j].Fails?
  }

  /** What the feed remembers: its last message and its last failure. */
  ghost predicate Remembers(lines: seq<Line>, s: State) {
    RemembersSaid(lines, s.lastText) && RemembersFailed(lines, s.failed)
  }

  ghost predicate RemembersSaid(lines: seq<Line>, text: string) {
    && (forall k: nat :: LastSpeaks(lines, k) ==> text == lines[k].item.kind.text)
    && (text == "" <==> forall k :: 0 <= k < |lines| ==> !Speaks(lines[k]))
  }

  function Message(l: Line): string
    requires l.Fails?
  {
    if l.message == "" then "error" else l.message
  }

  ghost predicate RemembersFailed(lines: seq<Line>, text: string) {
    && (forall k: nat :: LastFails(lines, k) ==> text == Message(lines[k]))
    && (text == "" <==> forall k :: 0 <= k < |lines| ==> !lines[k].Fails?)
  }

  lemma {:induction false} ChangesRemember(s: State, id: string, kinds: seq<string>, failed: bool)
    ensures Changes(s, id, kinds, failed).lastText == s.lastText && Changes(s, id, kinds, failed).failed == s.failed
  {
    if kinds != [] { ChangesRemember(s, id, kinds[..|kinds| - 1], failed); }
  }

  lemma LineRemembers(s: State, l: Line, t: State)
    requires t == LineRead(s, l)
    ensures t.lastText == if Speaks(l) then l.item.kind.text else s.lastText
    ensures t.failed == if l.Fails? then Message(l) else s.failed
  {
    if l.OnItem? && l.item.kind.FileChange? {
      ChangesRemember(s, Id(s, l.item), if l.item.kind.changes.Some? then l.item.kind.changes.value
          else [""], l.item.failed);
    }
  }

  lemma {:induction false} LinesRemember(lines: seq<Line>)
    ensures Remembers(lines, LinesRead(lines))
  {
    if lines != [] {
      var n := |lines| - 1;
      var before, after := LinesRead(lines[..n]), LinesRead(lines);
      LinesRemember(lines[..n]);
      LineRemembers(before, lines[n], after);
      SaidMore(lines[..n], lines[n], lines, before.lastText, after.lastText);
      FailedMore(lines[..n], lines[n], lines, before.failed, after.failed);
    }
  }

  lemma SaidMore(front: seq<Line>, l: Line, lines: seq<Line>, was: string, text: string)
    requires lines == front + [l] && RemembersSaid(front, was) && text == if Speaks(l) then l.item.kind.text else was
    ensures RemembersSaid(lines, text)
  {
    assert lines[|front|] == l;
    assert forall k :: 0 <= k < |front| ==> lines[k] == front[k];
    if !Speaks(l) {
      assert forall k :: 0 <= k < |front| ==> (Speaks(front[k]) <==> Speaks(lines[k]));
      forall k: nat | LastSpeaks(lines, k) ensures text == lines[k].item.kind.text { assert LastSpeaks(front, k); }
    }
  }

  lemma FailedMore(front: seq<Line>, l: Line, lines: seq<Line>, was: string, text: string)
    requires lines == front + [l] && RemembersFailed(front, was) && text == if l.Fails? then Message(l) else was
    ensures RemembersFailed(lines, text)
  {
    assert lines[|front|] == l;
    assert forall k :: 0 <= k < |front| ==> lines[k] == front[k];
    if !l.Fails? {
      assert forall k :: 0 <= k < |front| ==> (front[k].Fails? <==> lines[k].Fails?);
      forall k: nat | LastFails(lines, k) ensures text == Message(lines[k]) { assert LastFails(front, k); }
    }
  }

  /**
   What the closing event says of the lines: success exactly when some message was completed, no line failed and the
   process ended well; and then the last message, else the last failure, else that there was no result.
   */
  ghost predicate Closes(lines: seq<Line>, code: Option<int>, e: Event) {
    && e.Close?
    && (e.ok <==>
      && (exists k :: 0 <= k < |lines| && Speaks(lines[k])) && (forall k :: 0 <= k < |lines| ==> !lines[k].Fails?)
      && code in {None, Some(0)})
    && (e.ok ==> forall k: nat :: LastSpeaks(lines, k) ==> e.text == lines[k].item.kind.text)
    && (!e.ok ==> forall k: nat :: LastFails(lines, k) ==> e.text == Message(lines[k]))
    && (!e.ok && (forall k :: 0 <= k < |lines| ==> !lines[k].Fails?) ==> e.text == NO_RESULT)
  }

  /**
   For every sequence of lines: at the end every call has exactly one answer, later than the call, no answer lacks a
   call, and exactly one closing event ends the stream, which says of the lines what is true of them.
   */
  lemma FeedPairs(lines: seq<Line>, code: Option<int>)
    ensures var out := Ended(LinesRead(lines), code).out;
            && out != [] && Closes(lines, code, out[|out| - 1]) && (forall k :: 0 <= k < |out| - 1 ==> !out[k].Close?)
            && PairsUp(out[..|out| - 1])
  {
    LinesRemember(lines);
    var s := LinesRead(lines);
    LinesKeep(lines);
    CutOffKeeps(s, s.started);
    var r := CutOff(s, s.started);
    assert Uses(r.out) <= Answers(r.out);
    PairedPairsUp(r.out);
    forall k | 0 <= k < |r.out| ensures !r.out[k].Close? { FollowsAt(r.out, k); }
    assert Ended(s, code).out[..|r.out|] == r.out;
  }

  // ---------------------------------------------------------------- what each line is turned into

  /** The name a call is shown under. */
  predicate GoesBy(it: Item, name: string) {
    match it.kind
    case Command(_) => name == "Bash"
    case WebSearch => name == "WebSearch"
    case Collab => name == "Task"
    case McpCall(server, tool, _) =>
      (server != "" && tool != "" ==> name == "mcp__" + server + "__" + tool) && "mcp__" <= name
    case _ => name == (if it.t == "" then "codex:item" else "codex:" + it.t)
  }

  /** A call went wrong: it says so, its command ended badly, or its tool reported an error. */
  predicate WentWrong(it: Item) {
    || it.failed
    || match it.kind
       case Command(exit) => exit !in {None, Some(0)}
       case McpCall(_, _, error) => error
       case _ => false
  }

  predicate IsCall(k: Kind) { k.Command? || k.McpCall? || k.WebSearch? || k.Collab? || k.OtherItem? }

  /** An item of a call announces it, unless that was done before, and answers it when it is complete, but only once. */
  lemma CallTold(s: State, phase: Phase, it: Item, r: State) returns (id: string, name: string)
    requires IsCall(it.kind) && r == LineRead(s, OnItem(phase, it))
    ensures (it.id != "" ==> id == it.id) && (it.id == "" ==> id == it.t + "-" + Digits(|s.started|))
        && GoesBy(it, name)
    ensures r.out == s.out + (if id in s.started then [] else [Use(id, name)])
                   + (if phase.Completed? && id !in s.done then [Answer(id, WentWrong(it))] else [])
  {
    id, name := Id(s, it), NameOf(it);
    CallSeen(s, phase, it, id, r);
  }

  lemma CallSeen(s: State, phase: Phase, it: Item, id: string, r: State)
    requires IsCall(it.kind) && r == ItemSeen(s, phase, it, id)
    ensures r.out == s.out + (if id in s.started then [] else [Use(id, NameOf(it))])
                   + (if phase.Completed? && id !in s.done then [Answer(id, WentWrong(it))] else [])
  {
    assert IsError(it) == WentWrong(it);
  }

  /** The other lines: a message is said, once it is complete; what fails, ends or cannot be read leaves a note. */
  lemma LineTold(s: State, l: Line, r: State)
    requires r == LineRead(s, l)
    ensures Speaks(l) ==> r.out == s.out + [Said(l.item.kind.text)]
    ensures l.Unreadable? || l.ThreadStarted? || l.TurnCompleted? || l.Fails? || (l.OnItem? && l.item.kind.Problem?)
        ==> r.out == s.out + [Note]
    ensures l.TurnStarted? || l.Skipped? || (l.OnItem? && l.item.kind.Reasoning?) ==> r.out == s.out
    ensures l.OnItem? && !l.phase.Completed? && (l.item.kind.AgentMessage? || l.item.kind.FileChange?)
        ==> r.out == s.out
  {
  }

  function ChangeId(id: string, j: nat): string { id + ":" + Digits(j) }

  lemma ChangeIdsApart(id: string, i: nat, j: nat)
    requires ChangeId(id, i) == ChangeId(id, j)
    ensures i == j
  {
    assert Digits(i) == ChangeId(id, i)[|id| + 1..] == Digits(j);
    ValueOfDigits(i);
    ValueOfDigits(j);
  }

  /** A change of a file is a call and, right behind it, its answer. */
  predicate ChangeTold(id: string, kind: string, failed: bool, use: Event, answer: Event) {
    && answer == Answer(id, failed) && use.Use? && use.id == id
    && (kind == "add" ==> use.name == "Write") && (kind == "delete" ==> use.name == "Delete")
    && (kind !in {"add", "delete"} ==> use.name == "Edit")
  }

  ghost predicate ChangesOut(s: State, id: string, kinds: seq<string>, failed: bool, r: State) {
    && |r.out| == |s.out| + 2 * |kinds| && s.out <= r.out
    && (forall x :: x in r.started <==> x in s.started || exists j :: 0 <= j < |kinds| && x == ChangeId(id, j))
    && (forall x :: x in r.done <==> x in s.done || exists j :: 0 <= j < |kinds| && x == ChangeId(id, j))
    && forall j :: 0 <= j < |kinds| ==>
         ChangeTold(ChangeId(id, j), kinds[j], failed, r.out[|s.out| + 2 * j], r.out[|s.out| + 2 * j + 1])
  }

  /** The changes of an item whose ids are new, in order. */
  lemma {:induction false} ChangesTold(s: State, id: string, kinds: seq<string>, failed: bool, r: State)
    requires r == Changes(s, id, kinds, failed)
    requires forall j :: 0 <= j < |kinds| ==> ChangeId(id, j) !in s.started && ChangeId(id, j) !in s.done
    ensures ChangesOut(s, id, kinds, failed, r)
  {
    if kinds != [] {
      var n := |kinds| - 1;
      var before := Changes(s, id, kinds[..n], failed);
      ChangesTold(s, id, kinds[..n], failed, before);
      forall j | 0 <= j < n ensures ChangeId(id, j) != ChangeId(id, n) {
        if ChangeId(id, j) == ChangeId(id, n) { ChangeIdsApart(id, j, n); }
      }
      OneChange(before, ChangeId(id, n), kinds[n], failed, r);
      ChangeAdded(s, id, kinds, kinds[..n], failed, before, r);
    }
  }

  lemma OneChange(s: State, c: string, kind: string, failed: bool, r: State)
    requires r == Result(Tool(s, c, FileTool(kind)), c, failed) && c !in s.started && c !in s.done
    ensures r.started == s.started + [c] && r.done == s.done + {c}
    ensures |r.out| == |s.out| + 2 && s.out <= r.out && ChangeTold(c, kind, failed, r.out[|s.out|], r.out[|s.out| + 1])
  {
  }

  lemma ChangeAdded(s: State, id: string, kinds: seq<string>, front: seq<string>, failed: bool, before: State, r: State)
    requires kinds != [] && front == kinds[..|kinds| - 1] && ChangesOut(s, id, front, failed, before)
    requires r.started == before.started + [ChangeId(id, |front|)] && r.done == before.done + {ChangeId(id, |front|)}
    requires |r.out| == |before.out| + 2 && before.out <= r.out
    requires ChangeTold(ChangeId(id, |front|), kinds[|front|], failed, r.out[|before.out|], r.out[|before.out| + 1])
    ensures ChangesOut(s, id, kinds, failed, r)
  {
    forall j | 0 <= j < |kinds|
      ensures ChangeTold(ChangeId(id, j), kinds[j], failed, r.out[|s.out| + 2 * j], r.out[|s.out| + 2 * j + 1])
    {
      if j < |front| { assert kinds[j] == front[j]; }
    }
  }

  /** A completed file change tells every change; one that lists none is an edit. */
  lemma FileChangeTold(s: State, it: Item, kinds: seq<string>, r: State)
    requires it.kind.FileChange? && it.id != "" && r == LineRead(s, OnItem(Completed, it))
    requires kinds == if it.kind.changes.Some? then it.kind.changes.value else [""]
    requires forall j :: 0 <= j < |kinds| ==> ChangeId(it.id, j) !in s.started && ChangeId(it.id, j) !in s.done
    ensures ChangesOut(s, it.id, kinds, it.failed, r)
  {
    ChangesTold(s, it.id, kinds, it.failed, r);
  }

  // ---------------------------------------------------------------- what the end tells

  lemma {:induction false} CutOffTold(s: State, ids: seq<string>, r: State)
    requires r == CutOff(s, ids)
    ensures s.out <= r.out && s.done <= r.done
    ensures forall i :: |s.out| <= i < |r.out| ==>
              r.out[i].Answer? && r.out[i].isError && r.out[i].id in ids && r.out[i].id !in s.done
  {
    if ids != [] { CutOffTold(s, ids[..|ids| - 1], CutOff(s, ids[..|ids| - 1])); }
  }

  /**
   A call the end cuts off has failed: whatever stands between the lines' events and the closing one is such an answer.
   */
  lemma EndTold(s: State, code: Option<int>, r: State)
    requires r == Ended(s, code)
    ensures s.out <= r.out
    ensures forall i :: |s.out| <= i < |r.out| - 1 ==>
              r.out[i].Answer? && r.out[i].isError && r.out[i].id in s.started && r.out[i].id !in s.done
  {
    CutOffTold(s, s.started, CutOff(s, s.started));
  }

  function Turns(lines: seq<Line>): nat {
    if lines == [] then 0 else Turns(lines[..|lines| - 1]) + if lines[|lines| - 1].TurnStarted? then 1 else 0
  }

  /** The thread that was started last. */
  function ThreadOf(lines: seq<Line>): string {
    if lines == [] then ""
    else if lines[|lines| - 1].ThreadStarted? then lines[|lines| - 1].id
    else ThreadOf(lines[..|lines| - 1])
  }

  lemma {:induction false} ChangesCount(s: State, id: string, kinds: seq<string>, failed: bool)
    ensures Changes(s, id, kinds, failed).session == s.session && Changes(s, id, kinds, failed).turns == s.turns
  {
    if kinds != [] { ChangesCount(s, id, kinds[..|kinds| - 1], failed); }
  }

  lemma LineCounts(s: State, l: Line, r: State)
    requires r == LineRead(s, l)
    ensures r.turns == s.turns + if l.TurnStarted? then 1 else 0
    ensures r.session == if l.ThreadStarted? then l.id else s.session
  {
    if l.OnItem? && l.item.kind.FileChange? {
      ChangesCount(s, Id(s, l.item), if l.item.kind.changes.Some? then l.item.kind.changes.value
          else [""], l.item.failed);
    }
  }

  /** The session is the last thread that was started, and every turn that was started is counted. */
  lemma {:induction false} FeedCounts(lines: seq<Line>, r: State)
    requires r == LinesRead(lines)
    ensures r.turns == Turns(lines) && r.session == ThreadOf(lines)
  {
    if lines != [] {
      var before := LinesRead(lines[..|lines| - 1]);
      FeedCounts(lines[..|lines| - 1], before);
      LineCounts(before, lines[|lines| - 1], r);
    }
  }
}
