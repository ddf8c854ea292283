/**
 What one message of a harness's feed does to a transcript (engine/transcript.js, `handle` and its helpers), as
 functions on the parse state. `TranscriptLog.Log` is proved to compute exactly these.
 */
module TranscriptEvents {
  import opened Numerals
  import opened Prelude

  const OUT_CAP := 8000
  const INPUT_CAP := 6000
  const MERGE_CAP := 20000

  datatype Kind = User | Text | Thinking | Tool | Error | Final | Meta

  /** What is pushed with a text of its own; a call comes with `addTool`. */
  type Spoken = t: Kind | !t.Tool? witness Text

  /** A clipped text and how many characters were left out. */
  datatype Clip = Clip(text: string, more: nat)

  /** One event as the page shows it. `i` is its index as the event itself carries it. */
  datatype Event = Event(
    t: Kind, text: string, i: Option<nat>, line: nat, id: string, name: string, summary: string, input: Clip,
    output: Option<Clip>, pending: bool, isError: bool, partial: bool, mid: bool, answer: bool, v: nat)

  datatype Usage = Usage(input: int, output: int, cached: int)

  datatype State = State(
    line: nat, events: seq<Event>, byId: map<string, nat>, session: Option<string>, usage: Usage,
    turns: map<string, Usage>, cost: Option<real>)

  /** A content block of a whole assistant message. */
  datatype Block = TextBlock(text: string) | ThinkingBlock(text: string) | ToolUse(id: string, name: string,
        input: string, summary: string)

  /** A content block of a user's message: a call's result, or words that are shown. */
  datatype UserBlock = Answer(id: string, output: string, isError: bool) | Words(text: string)

  /** What a completed MiniMax item was, when no message or thought had taken its place before. */
  datatype Completed = AgentMessage | Reasoning | ToolOutput | OtherItem

  /** A parsed line, as far as `handle` tells them apart. Texts that regular expressions classify come classified. */
  datatype Message =
    | Other
    | Start(session: string)
    | Said(t: Spoken, text: string)
    | Delta(thinking: bool, text: string)
    | ToolCall(id: string, name: string, input: string, summary: string)
    | ToolResult(id: string, output: string, isError: bool)
    | UserSaid(parts: seq<UserBlock>)
    | Assistant(spent: Usage, blocks: seq<Block>)
    | Result(session: string, text: string, isError: bool, cost: Option<real>)
    | Spent(spent: Usage)
    | Item(id: string, name: string, given: Option<string>, summary: string, answered: Option<string>, completed: bool,
        isError: bool)
    | ItemStarted(id: string, thinking: bool)
    | ItemCompleted(id: string, what: Completed, text: string, isError: bool)
    | TurnCompleted(report: Option<Report>)
    | ExecCompleted(report: Option<Report>, text: string, isError: bool)

  /** The tokens one event reports for a turn; the run and turn ids may stand on the event or on its payload. */
  datatype Report = Report(runId: string, payloadRunId: string, turnId: string, payloadTurnId: string, tokens: Usage)

  const FRESH := State(0, [], map[], None, Usage(0, 0, 0), map[], None)

  // ---------------------------------------------------------------- text

  function Cut(s: string, n: nat): Clip { if |s| > n then Clip(s[..n], |s| - n) else Clip(s, 0) }

  /** `s.slice(-n)` */
  function Last<T>(s: seq<T>, n: nat): seq<T> { if |s| > n then s[|s| - n..] else s }

  function Or(a: string, b: string): string { if a != "" then a else b }

  /** Every id leads to an existing event. */
  ghost predicate Indexed(st: State) {
    forall id :: id in st.byId ==> st.byId[id] < |st.events|
  }

  /**
   How an operation may change the events: none is removed or moved, none changes its kind, its id or the index it
   carries,
   and a new one carries its own index and is not partial, unless it is `streamed`.
   */
  ghost predicate Evolves(a: State, b: State, streamed: bool) {
    && |a.events| <= |b.events|
    && (forall k :: 0 <= k < |a.events| ==> SameEvent(a.events[k], b.events[k]))
    && (forall k ::
      |a.events| <= k < |b.events| ==> if streamed then b.events[k].i.None?
          else b.events[k].i == Some(k) && !b.events[k].partial)
  }

  ghost predicate SameEvent(a: Event, b: Event) {
    a.i == b.i && a.t == b.t && a.id == b.id && (b.partial ==> a.partial)
  }

  ghost predicate SameUsage(a: State, b: State) {
    a.usage == b.usage && a.turns == b.turns && a.session == b.session && a.cost == b.cost
  }

  // ---------------------------------------------------------------- the helpers

  function Plain(t: Kind, text: string, line: nat): Event {
    Event(t, text, None, line, "", "", "", Clip("", 0), None, false, false, false, false, false, 0)
  }

  predicate SaysError(events: seq<Event>, text: string) {
    exists e :: e in events && e.t.Error? && Trim(e.text) == text
  }

  function SetEvent(st: State, k: nat, e: Event): State
    requires k < |st.events|
  {
    st.(events := st.events[k := e])
  }

  /** The index of the last event of a kind that also satisfies `partial` when asked to, or None. */
  function LastOf(events: seq<Event>, t: Kind, partialOnly: bool): (k: Option<nat>)
    ensures k.Some? ==> k.value < |events| && events[k.value].t == t && (partialOnly ==> events[k.value].partial)
    ensures k.Some? ==> forall j :: k.value < j < |events| ==> events[j].t != t || (partialOnly && !events[j].partial)
    ensures k.None? ==> forall j :: 0 <= j < |events| ==> events[j].t != t || (partialOnly && !events[j].partial)
  {
    if events == [] then None
    else
      var n := |events| - 1;
      if events[n].t == t && (partialOnly ==> events[n].partial) then Some(n) else LastOf(events[..n], t, partialOnly)
  }

  lemma LastStep(events: seq<Event>, i: nat, t: Kind, partialOnly: bool)
    requires i < |events|
    ensures LastOf(events[..i + 1], t, partialOnly)
         == if events[i].t == t && (partialOnly ==> events[i].partial) then Some(i)
             else LastOf(events[..i], t, partialOnly)
  {
    assert events[..i + 1][..i] == events[..i];
  }

  /** Whether `push` folds an event into the last one instead of adding it. */
  predicate Merges(st: State, ev: Event) {
    && |st.events| > 0
    && var last := st.events[|st.events| - 1];
       ev.t == last.t && !ev.mid && !last.mid && ev.t.Thinking?
  }

  predicate Repeats(st: State, ev: Event) { ev.t.Error? && SaysError(Last(st.events, 3), Trim(ev.text)) }

  function Push(st: State, ev: Event): (r: State)
    requires !ev.partial
    ensures Evolves(st, r, false) && SameUsage(st, r)
    ensures r.byId == st.byId && |st.events| <= |r.events|
    ensures ev.t.Tool? ==> |r.events| == |st.events| + 1
  {
    if Repeats(st, ev) then st
    else if Merges(st, ev) then
      var n := |st.events| - 1;
      var last := st.events[n];
      SetEvent(st, n, last.(text := Last(last.text + "\n\n" + ev.text, MERGE_CAP)))
    else st.(events := st.events + [ev.(i := Some(|st.events|))])
  }

  function ToolId(st: State, id: string): string { if id != "" then id else "t" + Digits(|st.events|) }

  function AddTool(st: State, id: string, name: string, input: string, summary: string, line: nat): (r: State)
    ensures Evolves(st, r, false) && SameUsage(st, r)
    ensures Indexed(st) ==> Indexed(r)
    ensures |r.events| == |st.events| + 1 && r.events[|st.events|].t.Tool? && r.events[|st.events|].id == ToolId(st, id)
    ensures r.events[..|st.events|] == st.events && r.byId == st.byId[ToolId(st, id) := |st.events|]
  {
    var ev := Plain(Tool, "", line).(id := ToolId(st, id), name := Or(name, "tool"), summary := summary,
        input := Cut(input, INPUT_CAP), pending := true);
    Push(st, ev).(byId := st.byId[ev.id := |st.events|])
  }

  function SetResult(st: State, id: string, output: string, isError: bool): (r: State)
    requires Indexed(st)
    ensures Evolves(st, r, false) && SameUsage(st, r)
    ensures Indexed(r)
  {
    if id !in st.byId then st
    else
      var k := st.byId[id];
      var e := st.events[k];
      SetEvent(st, k, e.(output := Some(Cut(output, OUT_CAP)), pending := false, isError := isError, v := e.v + 1))
  }

  function PushDelta(st: State, t: Kind, text: string, line: nat): (r: State)
    ensures Evolves(st, r, true) && SameUsage(st, r)
    ensures (forall e :: e in st.events ==> !e.partial) ==> |r.events| > |st.events|
    ensures Indexed(st) ==> Indexed(r)
  {
    var k := LastOf(st.events, t, false);
    if k.Some? && st.events[k.value].partial then
      var e := st.events[k.value];
      SetEvent(st, k.value, e.(text := Last(e.text + text, MERGE_CAP), v := e.v + 1))
    else st.(events := st.events + [Plain(t, text, line).(partial := true, mid := true)])
  }

  /** A whole text or thinking block: it replaces what was streamed, or is pushed. */
  function WholeBlock(st: State, t: Kind, text: string, line: nat): (r: State)
    ensures Evolves(st, r, false) && SameUsage(st, r)
    ensures Indexed(st) ==> Indexed(r)
  {
    var k := LastOf(st.events, t, true);
    if k.Some? then
      var e := st.events[k.value];
      SetEvent(st, k.value, e.(text := text, partial := false, v := e.v + 1))
    else Push(st, Plain(t, text, line))
  }

  function OnBlock(st: State, b: Block, line: nat): State {
    match b
    case TextBlock(text) => if Trim(text) != "" then WholeBlock(st, Text, text, line) else st
    case ThinkingBlock(text) => if text != "" then WholeBlock(st, Thinking, text, line) else st
    case ToolUse(id, name, input, summary) => AddTool(st, id, name, input, summary, line)
  }

  function OnBlocks(st: State, bs: seq<Block>, line: nat): (r: State)
    ensures Evolves(st, r, false) && SameUsage(st, r)
    ensures Indexed(st) ==> Indexed(r)
  {
    if bs == [] then st else OnBlock(OnBlocks(st, bs[..|bs| - 1], line), bs[|bs| - 1], line)
  }

  function OnUserBlock(st: State, b: UserBlock, line: nat): (r: State)
    requires Indexed(st)
    ensures Evolves(st, r, false) && SameUsage(st, r)
    ensures Indexed(r)
  {
    match b
    case Answer(id, output, isError) => SetResult(st, id, output, isError)
    case Words(text) => Push(st, Plain(User, text, line))
  }

  /** The parts of a user's message, one after the other: parallel calls are answered in one message. */
  function OnUserBlocks(st: State, bs: seq<UserBlock>, line: nat): (r: State)
    requires Indexed(st)
    ensures Evolves(st, r, false) && SameUsage(st, r)
    ensures Indexed(r)
  {
    if bs == [] then st
    else
      var before := OnUserBlocks(st, bs[..|bs| - 1], line);
      var after := OnUserBlock(before, bs[|bs| - 1], line);
      EvolvesTransitive(st, before, after);
      after
  }

  /** The answer a run ends with, unless one of the last events already said it as an error. */
  function AnswerText(st: State, text: string): string {
    var said := Trim(text);
    if said != "" && SaysError(Last(st.events, 4), said) then "" else said
  }

  /** The last text event becomes the answer when it is the same text; otherwise the final event carries it. */
  function PutFinal(st: State, t: string, isError: bool, line: nat): (r: State)
    ensures Evolves(st, r, false) && SameUsage(st, r)
    ensures Indexed(st) ==> Indexed(r)
  {
    var k := LastOf(st.events, Text, false);
    if k.Some? && t != "" && Trim(st.events[k.value].text) == t then
      var e := st.events[k.value];
      Push(SetEvent(st, k.value, e.(answer := true, v := e.v + 1)), Plain(Final, "", line).(isError := isError))
    else Push(st, Plain(Final, t, line).(isError := isError))
  }

  function FinalEvent(st: State, text: string, isError: bool, line: nat): (r: State)
    ensures Evolves(st, r, false) && SameUsage(st, r)
    ensures Indexed(st) ==> Indexed(r)
  {
    PutFinal(st, AnswerText(st, text), isError, line)
  }

  function Add(a: Usage, b: Usage): Usage { Usage(a.input + b.input, a.output + b.output, a.cached + b.cached) }

  function Sub(a: Usage, b: Usage): Usage { Usage(a.input - b.input, a.output - b.output, a.cached - b.cached) }

  function MaxOf(a: Usage, b: Usage): Usage {
    Usage(Max(a.input, b.input), Max(a.output, b.output), Max(a.cached, b.cached))
  }

  function Key(r: Report): string { Or(r.runId, r.payloadRunId) + ":" + Or(r.turnId, r.payloadTurnId) }

  /** What a report says of its turn: the prompt includes the tokens read from the cache. */
  function Reported(r: Report): Usage { r.tokens.(input := r.tokens.input + r.tokens.cached) }

  function Known(turns: map<string, Usage>, key: string): Usage { if key in turns then turns[key] else Usage(0, 0, 0) }

  /** A turn is accounted once: only what a later report adds to it counts. */
  function MinimaxUsage(st: State, report: Option<Report>): State {
    if report.None? then st
    else
      var key := Key(report.value);
      var previous := Known(st.turns, key);
      var current := MaxOf(previous, Reported(report.value));
      st.(usage := Add(st.usage, Sub(current, previous)), turns := st.turns[key := current])
  }

  // ---------------------------------------------------------------- the messages

  /** An item's input arrives with the call or later; it is taken once. */
  function FillInput(st: State, k: nat, given: Option<string>, summary: string): (r: State)
    requires k < |st.events|
    ensures Evolves(st, r, false) && SameUsage(st, r) && r.byId == st.byId && |r.events| == |st.events|
  {
    var e := st.events[k];
    if given.Some? && e.summary == ""
        then SetEvent(st, k, e.(input := Cut(given.value, INPUT_CAP), summary := summary, v := e.v + 1)) else st
  }

  /** The state in which the item has its event, and that event's index. */
  function OpenItem(st: State, m: Message, line: nat): (r: (State, nat))
    requires m.Item? && Indexed(st)
    ensures Indexed(r.0) && r.1 < |r.0.events| && Evolves(st, r.0, false) && SameUsage(st, r.0)
  {
    if m.id in st.byId then (st, st.byId[m.id])
    else (AddTool(st, m.id, m.name, if m.given.Some? then m.given.value else "", m.summary, line), |st.events|)
  }

  function OnItem(st: State, m: Message, line: nat): (r: State)
    requires m.Item? && Indexed(st)
    ensures Indexed(r) && Evolves(st, r, false) && SameUsage(st, r)
  {
    var (found, k) := OpenItem(st, m, line);
    var filled := FillInput(found, k, m.given, m.summary);
    EvolvesTransitive(st, found, filled);
    if m.answered.Some? || m.completed then
      var done := SetResult(filled, m.id, if m.answered.Some? then m.answered.value else "", m.isError);
      EvolvesTransitive(st, filled, done);
      done
    else filled
  }

  lemma EvolvesTransitive(a: State, b: State, c: State)
    requires Evolves(a, b, false) && Evolves(b, c, false)
    ensures Evolves(a, c, false)
  {
    forall k | 0 <= k < |c.events| && k >= |a.events| ensures c.events[k].i == Some(k) && !c.events[k].partial {
      if k < |b.events| { assert SameEvent(b.events[k], c.events[k]); }
    }
    forall k | 0 <= k < |a.events| ensures SameEvent(a.events[k], c.events[k]) {
      assert SameEvent(a.events[k], b.events[k]) && SameEvent(b.events[k], c.events[k]);
    }
  }

  function OnItemStarted(st: State, m: Message, line: nat): (r: State)
    requires m.ItemStarted?
    ensures Evolves(st, r, false) && SameUsage(st, r)
    ensures Indexed(st) ==> Indexed(r)
  {
    var ev := Plain(if m.thinking then Thinking else Text, "", line).(mid := m.id != "");
    Push(st, ev).(byId := st.byId["m:" + m.id := if Merges(st, ev) then |st.events| - 1 else |st.events|])
  }

  function OnItemCompleted(st: State, m: Message, line: nat): (r: State)
    requires m.ItemCompleted? && Indexed(st)
    ensures Evolves(st, r, false) && SameUsage(st, r)
    ensures Indexed(r)
  {
    if "m:" + m.id in st.byId then
      var k := st.byId["m:" + m.id];
      var e := st.events[k];
      SetEvent(st, k, e.(text := Or(m.text, e.text), v := e.v + 1))
    else match m.what
      case AgentMessage => Push(st, Plain(Text, m.text, line))
      case Reasoning => Push(st, Plain(Thinking, m.text, line))
      case ToolOutput => SetResult(st, m.id, m.text, m.isError)
      case OtherItem => st
  }

  predicate IsDelta(m: Option<Message>) { m.Some? && m.value.Delta? }

  /** The MiniMax report a message carries. */
  function ReportOf(m: Message): Option<Report> {
    match m
    case TurnCompleted(r) => r
    case ExecCompleted(r, _, _) => r
    case _ => None
  }

  /** The tokens any other message adds to the totals. */
  function SpentOf(m: Message): Usage {
    match m
    case Assistant(spent, _) => spent
    case Spent(spent) => spent
    case _ => Usage(0, 0, 0)
  }

  /** What handling a message may do to the state besides the texts: the events, the totals and the turns. */
  ghost predicate Effect(st: State, r: State, streamed: bool, report: Option<Report>, spent: Usage) {
    && Indexed(r) && Evolves(st, r, streamed)
    && r.usage == Add(MinimaxUsage(st, report).usage, spent)
    && r.turns == MinimaxUsage(st, report).turns
  }

  /** A message that may say more of the session or the cost. */
  predicate Bills(m: Message) { m.Start? || m.Result? }

  /** The session and the cost are as they were. */
  ghost predicate SameBill(a: State, b: State) { a.session == b.session && a.cost == b.cost }

  function OnStart(st: State, session: string, line: nat): (r: State)
    requires Indexed(st)
    ensures Effect(st, r, false, None, Usage(0, 0, 0))
  {
    Push(st.(session := Some(session)), Plain(Meta, "", line))
  }

  function OnAssistant(st: State, spent: Usage, blocks: seq<Block>, line: nat): (r: State)
    requires Indexed(st)
    ensures Effect(st, r, false, None, spent) && SameBill(st, r)
  {
    OnBlocks(st.(usage := Add(st.usage, spent)), blocks, line)
  }

  /** A result names the session and adds its cost. */
  function Settle(st: State, session: string, cost: Option<real>): (r: State)
    ensures r.events == st.events && r.byId == st.byId && r.usage == st.usage && r.turns == st.turns
  {
    var s := if session != "" then st.(session := Some(session)) else st;
    if cost.Some? then s.(cost := Some((if s.cost.Some? then s.cost.value else 0.0) + cost.value)) else s
  }

  function OnResult(st: State, session: string, text: string, isError: bool, cost: Option<real>, line: nat): (r: State)
    requires Indexed(st)
    ensures Effect(st, r, false, None, Usage(0, 0, 0))
  {
    FinalEvent(Settle(st, session, cost), text, isError, line)
  }

  function OnExec(st: State, report: Option<Report>, text: string, isError: bool, line: nat): (r: State)
    requires Indexed(st)
    ensures Effect(st, r, false, report, Usage(0, 0, 0)) && SameBill(st, r)
  {
    FinalEvent(MinimaxUsage(st, report), text, isError, line)
  }

  predicate IsMinimax(m: Message) {
    m.Item? || m.ItemStarted? || m.ItemCompleted? || m.TurnCompleted? || m.ExecCompleted?
  }

  function HandleMinimax(st: State, m: Message, line: nat): (r: State)
    requires Indexed(st) && IsMinimax(m)
    ensures Effect(st, r, m.Delta?, ReportOf(m), SpentOf(m)) && SameBill(st, r)
  {
    match m
    case Item(_, _, _, _, _, _, _) => OnItem(st, m, line)
    case ItemStarted(_, _) => OnItemStarted(st, m, line)
    case ItemCompleted(_, _, _, _) => OnItemCompleted(st, m, line)
    case TurnCompleted(report) => MinimaxUsage(st, report)
    case ExecCompleted(report, text, isError) => OnExec(st, report, text, isError, line)
  }

  predicate IsPushed(m: Message) { m.Start? || m.Said? || m.ToolCall? || m.ToolResult? || m.UserSaid? }

  function HandlePushed(st: State, m: Message, line: nat): (r: State)
    requires Indexed(st) && IsPushed(m)
    ensures Effect(st, r, m.Delta?, ReportOf(m), SpentOf(m))
    ensures !Bills(m) ==> SameBill(st, r)
  {
    match m
    case Start(session) => OnStart(st, session, line)
    case Said(t, text) => Push(st, Plain(t, text, line))
    case ToolCall(id, name, input, summary) => AddTool(st, id, name, input, summary, line)
    case ToolResult(id, output, isError) => SetResult(st, id, output, isError)
    case UserSaid(parts) => OnUserBlocks(st, parts, line)
  }

  /** Read one event of a harness's feed. */
  function Handle(st: State, m: Message, line: nat): (r: State)
    requires Indexed(st)
    ensures Effect(st, r, m.Delta?, ReportOf(m), SpentOf(m))
    ensures !Bills(m) ==> SameBill(st, r)
  {
    if IsMinimax(m) then HandleMinimax(st, m, line)
    else if IsPushed(m) then HandlePushed(st, m, line)
    else if m.Delta? then PushDelta(st, if m.thinking then Thinking else Text, m.text, line)
    else if m.Assistant? then OnAssistant(st, m.spent, m.blocks, line)
    else if m.Result? then OnResult(st, m.session, m.text, m.isError, m.cost, line)
    else if m.Spent? then st.(usage := Add(st.usage, m.spent))
    else st
  }

  /** One line of the feed: it is counted, and handled when it holds a message. */
  function Line(st: State, m: Option<Message>): (r: State)
    requires Indexed(st)
    ensures Effect(st, r, IsDelta(m), if m.Some? then ReportOf(m.value) else None, if m.Some? then SpentOf(m.value)
        else Usage(0, 0, 0))
    ensures m.None? || !Bills(m.value) ==> SameBill(st, r)
  {
    if m.Some? then Handle(Counted(st), m.value, st.line + 1) else Counted(st)
  }

  function Counted(st: State): (r: State)
    ensures Indexed(st) ==> Indexed(r)
  {
    st.(line := st.line + 1)
  }

  /** The state after all these lines. */
  function Fold(st: State, ms: seq<Option<Message>>): (r: State)
    requires Indexed(st)
    ensures Indexed(r)
  {
    if ms == [] then st else Line(Fold(st, ms[..|ms| - 1]), ms[|ms| - 1])
  }

  lemma {:induction false} FoldAppend(st: State, a: seq<Option<Message>>, b: seq<Option<Message>>)
    requires Indexed(st)
    ensures Fold(st, a + b) == Fold(Fold(st, a), b)
  {
    if b == [] {
      assert a + b == a;
    } else {
      FoldAppend(st, a, b[..|b| - 1]);
      assert (a + b)[..|a + b| - 1] == a + b[..|b| - 1];
    }
  }

  // ---------------------------------------------------------------- the index an event carries

  /** Some line of the feed was a streamed piece of a message. */
  ghost predicate Streams(ms: seq<Option<Message>>) {
    exists k :: 0 <= k < |ms| && IsDelta(ms[k])
  }

  ghost predicate CarriesIndices(events: seq<Event>) {
    forall k :: 0 <= k < |events| ==> events[k].i == Some(k)
  }

  /** Every event carries its own index or, when it was streamed, none; only those can be partial. */
  ghost predicate WellNumbered(events: seq<Event>) {
    forall k :: 0 <= k < |events| ==> (events[k].i == Some(k) && !events[k].partial) || events[k].i.None?
  }

  /**
   Event k carries index k in every transcript if and only if nothing was streamed into it: `pushDelta` sets the index
   on the event it was given, but keeps a copy made before.
   */
  lemma {:induction false} IndexCarried(ms: seq<Option<Message>>)
    ensures WellNumbered(Fold(FRESH, ms).events)
    ensures CarriesIndices(Fold(FRESH, ms).events) <==> !Streams(ms)
  {
    if ms != [] {
      IndexCarried(ms[..|ms| - 1]);
      IndexLine(Fold(FRESH, ms[..|ms| - 1]), ms[|ms| - 1], Streams(ms[..|ms| - 1]));
      StreamsLast(ms);
    }
  }

  lemma StreamsLast(ms: seq<Option<Message>>)
    requires ms != []
    ensures Streams(ms) <==> Streams(ms[..|ms| - 1]) || IsDelta(ms[|ms| - 1])
  {
  }

  lemma IndexLine(st: State, m: Option<Message>, streamed: bool)
    requires Indexed(st) && WellNumbered(st.events) && (CarriesIndices(st.events) <==> !streamed)
    ensures WellNumbered(Line(st, m).events) && (CarriesIndices(Line(st, m).events) <==> !streamed && !IsDelta(m))
  {
    if IsDelta(m) && !streamed { FirstDelta(st, m); }
    NumberedStep(st, Line(st, m), streamed, IsDelta(m));
  }

  lemma FirstDelta(st: State, m: Option<Message>)
    requires Indexed(st) && IsDelta(m) && WellNumbered(st.events) && CarriesIndices(st.events)
    ensures |Line(st, m).events| > |st.events|
  {
    assert forall e :: e in st.events ==> !e.partial;
  }

  lemma NumberedStep(a: State, b: State, streamed: bool, delta: bool)
    requires Evolves(a, b, delta) && WellNumbered(a.events) && (CarriesIndices(a.events) <==> !streamed)
    requires delta && !streamed ==> |b.events| > |a.events|
    ensures WellNumbered(b.events) && (CarriesIndices(b.events) <==> !streamed && !delta)
  {
    assert forall k :: 0 <= k < |a.events| ==> SameEvent(a.events[k], b.events[k]);
    if streamed {
      var k :| 0 <= k < |a.events| && a.events[k].i != Some(k);
      assert b.events[k].i != Some(k);
    } else if delta {
      assert b.events[|a.events|].i.None?;
    }
  }

  // ---------------------------------------------------------------- usage

  datatype Field = Input | Output | Cached

  function Get(u: Usage, f: Field): int {
    match f
    case Input => u.input
    case Output => u.output
    case Cached => u.cached
  }

  /** The reports of MiniMax turns in a feed, in order and with repeats. */
  function Reports(ms: seq<Option<Message>>): seq<Report> {
    if ms == [] then []
    else Reports(ms[..|ms| - 1]) + ReportsOf(ms[|ms| - 1])
  }

  function ReportsOf(m: Option<Message>): seq<Report> {
    if m.Some? && ReportOf(m.value).Some? then [ReportOf(m.value).value] else []
  }

  function OtherOf(m: Option<Message>): Usage { if m.Some? then SpentOf(m.value) else Usage(0, 0, 0) }

  /** What the other harnesses' lines add up to. */
  function Others(ms: seq<Option<Message>>): Usage {
    if ms == [] then Usage(0, 0, 0) else Add(Others(ms[..|ms| - 1]), OtherOf(ms[|ms| - 1]))
  }

  /** `v` is the largest value any report of the turn gives for the field, and at least zero. */
  ghost predicate IsMost(v: int, f: Field, key: string, reports: seq<Report>) {
    && v >= 0
    && (forall r :: r in reports && Key(r) == key ==> Get(Reported(r), f) <= v)
    && (v == 0 || exists r :: r in reports && Key(r) == key && Get(Reported(r), f) == v)
  }

  /** The turns are exactly those reported, each with the per-field maximum of its reports. */
  ghost predicate Accounted(turns: map<string, Usage>, reports: seq<Report>) {
    && (forall r :: r in reports ==> Key(r) in turns)
    && (forall key :: key in turns ==> exists r :: r in reports && Key(r) == key)
    && (forall key, f :: key in turns ==> IsMost(Get(turns[key], f), f, key, reports))
  }

  ghost function SumOver(keys: set<string>, turns: map<string, Usage>, f: Field): int
    requires keys <= turns.Keys
  {
    if keys == {} then 0 else var k :| k in keys; Get(turns[k], f) + SumOver(keys - {k}, turns, f)
  }

  lemma {:induction false} SumTakeOut(keys: set<string>, turns: map<string, Usage>, f: Field, k: string)
    requires keys <= turns.Keys && k in keys
    ensures SumOver(keys, turns, f) == Get(turns[k], f) + SumOver(keys - {k}, turns, f)
    decreases |keys|
  {
    var p :| p in keys && SumOver(keys, turns, f) == Get(turns[p], f) + SumOver(keys - {p}, turns, f);
    if p != k {
      SumTakeOut(keys - {p}, turns, f, k);
      SumTakeOut(keys - {k}, turns, f, p);
      assert keys - {p} - {k} == keys - {k} - {p};
    }
  }

  lemma {:induction false} SumUntouched(keys: set<string>, turns: map<string, Usage>, f: Field, key: string, u: Usage)
    requires keys <= turns.Keys && key !in keys
    ensures SumOver(keys, turns[key := u], f) == SumOver(keys, turns, f)
    decreases |keys|
  {
    if keys != {} {
      var p :| p in keys;
      SumTakeOut(keys, turns, f, p);
      SumTakeOut(keys, turns[key := u], f, p);
      SumUntouched(keys - {p}, turns, f, key, u);
    }
  }

  /** What the turns of a state add up to. */
  ghost function TurnTotal(turns: map<string, Usage>, f: Field): int { SumOver(turns.Keys, turns, f) }

  lemma TotalUpdated(turns: map<string, Usage>, f: Field, key: string, u: Usage)
    ensures TurnTotal(turns[key := u], f) == TurnTotal(turns, f) + Get(u, f) - Get(Known(turns, key), f)
  {
    var rest := turns.Keys - {key};
    SumTakeOut(turns[key := u].Keys, turns[key := u], f, key);
    assert turns[key := u].Keys - {key} == rest;
    SumUntouched(rest, turns, f, key, u);
    if key in turns { SumTakeOut(turns.Keys, turns, f, key); } else { assert rest == turns.Keys; }
  }

  lemma ReportAccounted(turns: map<string, Usage>, reports: seq<Report>, r: Report)
    requires Accounted(turns, reports)
    ensures Accounted(turns[Key(r) := MaxOf(Known(turns, Key(r)), Reported(r))], reports + [r])
  {
    var key := Key(r);
    var turns' := turns[key := MaxOf(Known(turns, key), Reported(r))];
    var reports' := reports + [r];
    assert forall q :: q in reports' <==> q in reports || q == r;
    forall k, f | k in turns' ensures IsMost(Get(turns'[k], f), f, k, reports') {
      assert k in turns ==> IsMost(Get(turns[k], f), f, k, reports);
    }
    forall k | k in turns' ensures exists q :: q in reports' && Key(q) == k {
      if k == key { assert r in reports'; }
    }
  }

  /**
   Conservation: in every reachable state the totals are what the other harnesses' lines report plus, for every MiniMax
   turn, the largest value any of its reports gives for the field.
   */
  lemma {:induction false} UsageConserved(ms: seq<Option<Message>>, f: Field)
    ensures Get(Fold(FRESH, ms).usage, f) == Get(Others(ms), f) + TurnTotal(Fold(FRESH, ms).turns, f)
    ensures Accounted(Fold(FRESH, ms).turns, Reports(ms))
  {
    if ms != [] {
      var front, last := ms[..|ms| - 1], ms[|ms| - 1];
      UsageConserved(front, f);
      LineUsage(Fold(FRESH, front), last, Reports(front), f);
    }
  }

  lemma LineUsage(st: State, m: Option<Message>, reports: seq<Report>, f: Field)
    requires Indexed(st) && Accounted(st.turns, reports)
    ensures var r := Line(st, m);
            && Get(r.usage, f) - Get(st.usage, f) == TurnTotal(r.turns, f) - TurnTotal(st.turns, f) + Get(OtherOf(m), f)
            && Accounted(r.turns, reports + ReportsOf(m))
  {
    var report := if m.Some? then ReportOf(m.value) else None;
    UsageStep(st, report, reports, f);
  }

  lemma UsageStep(st: State, report: Option<Report>, reports: seq<Report>, f: Field)
    requires Accounted(st.turns, reports)
    ensures var r := MinimaxUsage(st, report);
            && Get(r.usage, f) - Get(st.usage, f) == TurnTotal(r.turns, f) - TurnTotal(st.turns, f)
            && Accounted(r.turns, reports + if report.Some? then [report.value] else [])
  {
    if report.Some? {
      var key := Key(report.value);
      var current := MaxOf(Known(st.turns, key), Reported(report.value));
      TotalUpdated(st.turns, f, key, current);
      ReportAccounted(st.turns, reports, report.value);
    } else {
      assert reports + [] == reports;
    }
  }

  /** Neither the order of the reports nor their repetition matters. */
  lemma UsageOrderFree(a: seq<Option<Message>>, b: seq<Option<Message>>)
    requires forall r :: r in Reports(a) <==> r in Reports(b)
    ensures Fold(FRESH, a).turns == Fold(FRESH, b).turns
    ensures Sub(Fold(FRESH, a).usage, Others(a)) == Sub(Fold(FRESH, b).usage, Others(b))
  {
    SameTurns(Fold(FRESH, a).turns, Reports(a), Fold(FRESH, b).turns, Reports(b)) by {
      UsageConserved(a, Input); UsageConserved(b, Input);
    }
    forall f ensures Get(Sub(Fold(FRESH, a).usage, Others(a)), f) == Get(Sub(Fold(FRESH, b).usage, Others(b)), f) {
      UsageIn(a, f);
      UsageIn(b, f);
    }
    SameUsages(Sub(Fold(FRESH, a).usage, Others(a)), Sub(Fold(FRESH, b).usage, Others(b)));
  }

  lemma UsageIn(ms: seq<Option<Message>>, f: Field)
    ensures Get(Sub(Fold(FRESH, ms).usage, Others(ms)), f) == TurnTotal(Fold(FRESH, ms).turns, f)
  {
    UsageConserved(ms, f);
  }

  lemma SameUsages(s: Usage, t: Usage)
    requires forall f :: Get(s, f) == Get(t, f)
    ensures s == t
  {
    assert Get(s, Input) == Get(t, Input) && Get(s, Output) == Get(t, Output) && Get(s, Cached) == Get(t, Cached);
  }

  lemma SameTurns(s: map<string, Usage>, a: seq<Report>, t: map<string, Usage>, b: seq<Report>)
    requires Accounted(s, a) && Accounted(t, b)
    requires forall r :: r in a <==> r in b
    ensures s == t
  {
    SameKeys(s, a, t, b);
    SameKeys(t, b, s, a);
    forall key | key in s ensures s[key] == t[key] {
      assert forall f :: IsMost(Get(s[key], f), f, key, a);
      assert forall f :: IsMost(Get(t[key], f), f, key, b);
      SameMost(s[key], t[key], key, a, b);
    }
  }

  lemma SameKeys(s: map<string, Usage>, a: seq<Report>, t: map<string, Usage>, b: seq<Report>)
    requires Accounted(s, a) && Accounted(t, b)
    requires forall r :: r in a ==> r in b
    ensures s.Keys <= t.Keys
  {
    forall key | key in s ensures key in t {
      var r :| r in a && Key(r) == key;
      assert r in b;
    }
  }

  lemma SameMost(u: Usage, w: Usage, key: string, a: seq<Report>, b: seq<Report>)
    requires forall r :: r in a <==> r in b
    requires forall f :: IsMost(Get(u, f), f, key, a) && IsMost(Get(w, f), f, key, b)
    ensures u == w
  {
    forall f ensures Get(u, f) == Get(w, f) {
      assert IsMost(Get(u, f), f, key, a) && IsMost(Get(w, f), f, key, b);
    }
    SameUsages(u, w);
  }
}
