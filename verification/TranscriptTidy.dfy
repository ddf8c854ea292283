/**
 What every transcript looks like, whatever the feed (engine/transcript.js `push`, `addTool`, `setResult`): nothing is
 shown twice that belongs together, and a call's id leads to the call.
 */
module TranscriptTidy {
  import opened Prelude
  import opened TranscriptEvents

  /** Two blocks of thinking that belong together. */
  predicate Twins(a: Event, b: Event) { a.t.Thinking? && b.t.Thinking? && !a.mid && !b.mid }

  predicate SameError(a: Event, b: Event) { a.t.Error? && b.t.Error? && Trim(a.text) == Trim(b.text) }

  /** Thinking that belongs together is one block, and no error repeats one of the three events before it. */
  ghost predicate Tidy(events: seq<Event>) {
    && (forall k :: 0 < k < |events| ==> !Twins(events[k - 1], events[k]))
    && (forall j, k :: 0 <= j < k < |events| && k <= j + 3 ==> !SameError(events[j], events[k]))
  }

  ghost predicate TidyState(st: State) {
    Indexed(st) && Tidy(st.events) && forall id :: id in st.byId ==> !st.events[st.byId[id]].t.Error?
  }

  /** An id that could be mistaken for the mark under which a message's start is kept. */
  predicate Marked(id: string) { "m:" <= id }

  /** The id of call k leads to the last call of that id. */
  ghost predicate Leads(st: State, k: nat)
    requires k < |st.events|
  {
    var id := st.events[k].id;
    id in st.byId && k <= st.byId[id] < |st.events| && st.events[st.byId[id]].t.Tool? && st.events[st.byId[id]].id == id
  }

  ghost predicate Owned(st: State) {
    Indexed(st) && forall k: nat :: k < |st.events| && st.events[k].t.Tool? ==> !Marked(st.events[k].id) && Leads(st, k)
  }

  /** What a change keeps; the second only when the ids of calls are `free` of marks. */
  ghost predicate Keeps(a: State, b: State, free: bool) {
    (TidyState(a) ==> TidyState(b)) && (free && Owned(a) ==> Owned(b))
  }

  // ---------------------------------------------------------------- one change

  lemma SetKeeps(st: State, k: nat, e: Event)
    requires k < |st.events| && e.t == st.events[k].t && e.mid == st.events[k].mid && e.id == st.events[k].id
    requires TidyState(st) && e.t.Error? ==> e.text == st.events[k].text
    ensures Keeps(st, SetEvent(st, k, e), true)
  {
    if Owned(st) { SetOwned(st, k, e); }
  }

  lemma SetOwned(st: State, k: nat, e: Event)
    requires k < |st.events| && e.t == st.events[k].t && e.id == st.events[k].id && Owned(st)
    ensures Owned(SetEvent(st, k, e))
  {
    var r := SetEvent(st, k, e);
    forall j: nat | j < |r.events| && r.events[j].t.Tool? ensures !Marked(r.events[j].id) && Leads(r, j) {
      assert st.events[j].t.Tool? && Leads(st, j);
    }
  }

  /** Events that are behind the others, under the ids known before. */
  lemma AppendTidy(st: State, e: Event, r: State)
    requires TidyState(st) && r.events == st.events + [e] && r.byId == st.byId
    requires st.events != [] ==> !Twins(st.events[|st.events| - 1], e)
    requires forall j :: 0 <= j < |st.events| <= j + 3 ==> !SameError(st.events[j], e)
    ensures TidyState(r)
  {
  }

  lemma AppendOwned(st: State, e: Event, r: State)
    requires Owned(st) && r.events == st.events + [e] && r.byId == st.byId && !e.t.Tool?
    ensures Owned(r)
  {
    forall j: nat | j < |r.events| && r.events[j].t.Tool? ensures !Marked(r.events[j].id) && Leads(r, j) {
      assert st.events[j].t.Tool? && Leads(st, j);
    }
  }

  lemma NotRepeated(st: State, ev: Event, e: Event)
    requires !Repeats(st, ev) && e.t == ev.t && e.text == ev.text
    ensures forall j :: 0 <= j < |st.events| <= j + 3 ==> !SameError(st.events[j], e)
  {
    forall j | 0 <= j < |st.events| <= j + 3 ensures !SameError(st.events[j], e) {
      var last := Last(st.events, 3);
      assert st.events[j] == last[j - (|st.events| - |last|)] && st.events[j] in last;
    }
  }

  lemma PushKeeps(st: State, ev: Event)
    requires !ev.partial && !ev.t.Tool?
    ensures Keeps(st, Push(st, ev), true)
  {
    if !Repeats(st, ev) {
      if Merges(st, ev) {
        MergeKeeps(st, ev);
      } else {
        AppendKeeps(st, ev, Push(st, ev));
      }
    }
  }

  lemma MergeKeeps(st: State, ev: Event)
    requires !ev.partial && !Repeats(st, ev) && Merges(st, ev)
    ensures Keeps(st, Push(st, ev), true)
  {
    var last := st.events[|st.events| - 1];
    SetKeeps(st, |st.events| - 1, last.(text := Last(last.text + "\n\n" + ev.text, MERGE_CAP)));
  }

  lemma AppendKeeps(st: State, ev: Event, r: State)
    requires !ev.partial && !ev.t.Tool? && !Repeats(st, ev) && !Merges(st, ev) && r == Push(st, ev)
    ensures Keeps(st, r, true)
  {
    var e := ev.(i := Some(|st.events|));
    NotRepeated(st, ev, e);
    if TidyState(st) { AppendTidy(st, e, r); }
    if Owned(st) { AppendOwned(st, e, r); }
  }

  /** A call gets its own entry in the index; another call of that id loses it. */
  lemma AddToolKeeps(st: State, id: string, name: string, input: string, summary: string, line: nat)
    ensures Keeps(st, AddTool(st, id, name, input, summary, line), !Marked(id))
  {
    var r := AddTool(st, id, name, input, summary, line);
    var e := r.events[|st.events|];
    assert r.events == st.events + [e];
    assert !Marked(id) ==> !Marked(e.id) by { if id == "" { assert e.id[0] == 't'; } }
    if TidyState(st) { IndexedTidy(st, e, r, e.id); }
    if Owned(st) && !Marked(id) { IndexedOwned(st, e, r); }
  }

  lemma IndexedTidy(st: State, e: Event, r: State, id: string)
    requires TidyState(st) && r.events == st.events + [e] && r.byId == st.byId[id := |st.events|]
    requires !e.t.Error? && (st.events != [] ==> !Twins(st.events[|st.events| - 1], e))
    ensures TidyState(r)
  {
    forall f | f in r.byId ensures r.byId[f] < |r.events| && !r.events[r.byId[f]].t.Error? { }
  }

  lemma IndexedOwned(st: State, e: Event, r: State)
    requires Owned(st) && e.t.Tool? && !Marked(e.id) && r.events == st.events + [e]
        && r.byId == st.byId[e.id := |st.events|]
    ensures Owned(r)
  {
    forall j: nat | j < |r.events| && r.events[j].t.Tool? ensures !Marked(r.events[j].id) && Leads(r, j) {
      if j < |st.events| { assert st.events[j].t.Tool? && Leads(st, j); }
    }
  }

  lemma SetResultKeeps(st: State, id: string, output: string, isError: bool)
    requires Indexed(st)
    ensures Keeps(st, SetResult(st, id, output, isError), true)
  {
    if id in st.byId {
      var e := st.events[st.byId[id]];
      SetKeeps(st, st.byId[id],
          e.(output := Some(Cut(output, OUT_CAP)), pending := false, isError := isError, v := e.v + 1));
    }
  }

  lemma PushDeltaKeeps(st: State, t: Kind, text: string, line: nat)
    requires t.Text? || t.Thinking?
    ensures Keeps(st, PushDelta(st, t, text, line), true)
  {
    var k := LastOf(st.events, t, false);
    if k.Some? && st.events[k.value].partial {
      var e := st.events[k.value];
      SetKeeps(st, k.value, e.(text := Last(e.text + text, MERGE_CAP), v := e.v + 1));
    } else {
      var e := Plain(t, text, line).(partial := true, mid := true);
      if TidyState(st) { AppendTidy(st, e, PushDelta(st, t, text, line)); }
      if Owned(st) { AppendOwned(st, e, PushDelta(st, t, text, line)); }
    }
  }

  lemma WholeBlockKeeps(st: State, t: Kind, text: string, line: nat)
    requires t.Text? || t.Thinking?
    ensures Keeps(st, WholeBlock(st, t, text, line), true)
  {
    var k := LastOf(st.events, t, true);
    if k.Some? {
      var e := st.events[k.value];
      SetKeeps(st, k.value, e.(text := text, partial := false, v := e.v + 1));
    } else {
      PushKeeps(st, Plain(t, text, line));
    }
  }

  // ---------------------------------------------------------------- a message

  /** The ids calls are given are no marks. */
  predicate Unmarked(b: Block) { b.ToolUse? ==> !Marked(b.id) }

  predicate AllUnmarked(bs: seq<Block>) { forall b :: b in bs ==> Unmarked(b) }

  predicate MarkFree(m: Message) {
    match m
    case ToolCall(id, _, _, _) => !Marked(id)
    case Assistant(_, blocks) => AllUnmarked(blocks)
    case Item(id, _, _, _, _, _, _) => !Marked(id)
    case _ => true
  }

  lemma OnBlockKeeps(st: State, b: Block, line: nat)
    ensures Keeps(st, OnBlock(st, b, line), Unmarked(b))
  {
    match b
    case TextBlock(text) => WholeBlockKeeps(st, Text, text, line);
    case ThinkingBlock(text) => WholeBlockKeeps(st, Thinking, text, line);
    case ToolUse(id, name, input, summary) => AddToolKeeps(st, id, name, input, summary, line);
  }

  lemma {:induction false} OnBlocksKeeps(st: State, bs: seq<Block>, line: nat)
    ensures Keeps(st, OnBlocks(st, bs, line), AllUnmarked(bs))
  {
    if bs != [] {
      OnBlocksKeeps(st, bs[..|bs| - 1], line);
      OnBlockKeeps(OnBlocks(st, bs[..|bs| - 1], line), bs[|bs| - 1], line);
    }
  }

  lemma OnUserBlockKeeps(st: State, b: UserBlock, line: nat)
    requires Indexed(st)
    ensures Keeps(st, OnUserBlock(st, b, line), true)
  {
    match b
    case Answer(id, output, isError) => SetResultKeeps(st, id, output, isError);
    case Words(text) => PushKeeps(st, Plain(User, text, line));
  }

  lemma {:induction false} OnUserBlocksKeeps(st: State, bs: seq<UserBlock>, line: nat)
    requires Indexed(st)
    ensures Keeps(st, OnUserBlocks(st, bs, line), true)
  {
    if bs != [] {
      OnUserBlocksKeeps(st, bs[..|bs| - 1], line);
      OnUserBlockKeeps(OnUserBlocks(st, bs[..|bs| - 1], line), bs[|bs| - 1], line);
    }
  }

  lemma AnswerKeeps(st: State, k: nat, isError: bool, line: nat, marked: State, r: State)
    requires k < |st.events| && marked == SetEvent(st, k, st.events[k].(answer := true, v := st.events[k].v + 1))
    requires r == Push(marked, Plain(Final, "", line).(isError := isError))
    ensures Keeps(st, r, true)
  {
    SetKeeps(st, k, st.events[k].(answer := true, v := st.events[k].v + 1));
    PushKeeps(marked, Plain(Final, "", line).(isError := isError));
    KeepsTwice(st, marked, r, true);
  }

  lemma PutFinalKeeps(st: State, t: string, isError: bool, line: nat, r: State)
    requires r == PutFinal(st, t, isError, line)
    ensures Keeps(st, r, true)
  {
    var k := LastOf(st.events, Text, false);
    if k.Some? && t != "" && Trim(st.events[k.value].text) == t {
      AnswerKeeps(st, k.value, isError, line,
          SetEvent(st, k.value, st.events[k.value].(answer := true, v := st.events[k.value].v + 1)), r);
    } else {
      PushKeeps(st, Plain(Final, t, line).(isError := isError));
    }
  }

  lemma FinalEventKeeps(st: State, text: string, isError: bool, line: nat)
    ensures Keeps(st, FinalEvent(st, text, isError, line), true)
  {
    PutFinalKeeps(st, AnswerText(st, text), isError, line, FinalEvent(st, text, isError, line));
  }

  lemma FillInputKeeps(st: State, k: nat, given: Option<string>, summary: string)
    requires k < |st.events|
    ensures Keeps(st, FillInput(st, k, given, summary), true)
  {
    var e := st.events[k];
    if given.Some? { SetKeeps(st, k, e.(input := Cut(given.value, INPUT_CAP), summary := summary, v := e.v + 1)); }
  }

  lemma OnItemKeeps(st: State, m: Message, line: nat)
    requires m.Item? && Indexed(st)
    ensures Keeps(st, OnItem(st, m, line), !Marked(m.id))
  {
    var (found, k) := OpenItem(st, m, line);
    AddToolKeeps(st, m.id, m.name, if m.given.Some? then m.given.value else "", m.summary, line);
    FillInputKeeps(found, k, m.given, m.summary);
    var filled := FillInput(found, k, m.given, m.summary);
    SetResultKeeps(filled, m.id, if m.answered.Some? then m.answered.value else "", m.isError);
  }

  /** A message's place is kept under a mark, which is no call's id. */
  lemma OnItemStartedKeeps(st: State, m: Message, line: nat)
    requires m.ItemStarted?
    ensures Keeps(st, OnItemStarted(st, m, line), true)
  {
    var ev := Plain(if m.thinking then Thinking else Text, "", line).(mid := m.id != "");
    var k := if Merges(st, ev) then |st.events| - 1 else |st.events|;
    PushKeeps(st, ev);
    MarkKeeps(Push(st, ev), "m:" + m.id, k, OnItemStarted(st, m, line));
  }

  lemma MarkKeeps(st: State, mark: string, k: nat, r: State)
    requires Marked(mark) && k < |st.events| && !st.events[k].t.Error? && r == st.(byId := st.byId[mark := k])
    ensures Keeps(st, r, true)
  {
    if Owned(st) {
      forall j: nat | j < |r.events| && r.events[j].t.Tool? ensures !Marked(r.events[j].id) && Leads(r, j) {
        assert Leads(st, j);
      }
    }
  }

  lemma OnItemCompletedKeeps(st: State, m: Message, line: nat)
    requires m.ItemCompleted? && Indexed(st)
    ensures Keeps(st, OnItemCompleted(st, m, line), true)
  {
    if "m:" + m.id in st.byId {
      var e := st.events[st.byId["m:" + m.id]];
      SetKeeps(st, st.byId["m:" + m.id], e.(text := Or(m.text, e.text), v := e.v + 1));
    } else {
      match m.what
      case AgentMessage => PushKeeps(st, Plain(Text, m.text, line));
      case Reasoning => PushKeeps(st, Plain(Thinking, m.text, line));
      case ToolOutput => SetResultKeeps(st, m.id, m.text, m.isError);
      case OtherItem =>
    }
  }

  lemma SameKeeps(a: State, b: State)
    requires b.events == a.events && b.byId == a.byId
    ensures Keeps(a, b, true)
  {
    if Owned(a) {
      forall j: nat | j < |b.events| && b.events[j].t.Tool? ensures !Marked(b.events[j].id) && Leads(b, j) {
        assert Leads(a, j);
      }
    }
  }

  lemma HandleMinimaxKeeps(st: State, m: Message, line: nat)
    requires Indexed(st) && IsMinimax(m)
    ensures Keeps(st, HandleMinimax(st, m, line), MarkFree(m))
  {
    match m
    case Item(_, _, _, _, _, _, _) => OnItemKeeps(st, m, line);
    case ItemStarted(_, _) => OnItemStartedKeeps(st, m, line);
    case ItemCompleted(_, _, _, _) => OnItemCompletedKeeps(st, m, line);
    case TurnCompleted(report) => SameKeeps(st, MinimaxUsage(st, report));
    case ExecCompleted(report, text, isError) =>
      SameKeeps(st, MinimaxUsage(st, report));
      FinalEventKeeps(MinimaxUsage(st, report), text, isError, line);
  }

  lemma HandlePushedKeeps(st: State, m: Message, line: nat)
    requires Indexed(st) && IsPushed(m)
    ensures Keeps(st, HandlePushed(st, m, line), MarkFree(m))
  {
    match m
    case Start(session) =>
      SameKeeps(st, st.(session := Some(session)));
      PushKeeps(st.(session := Some(session)), Plain(Meta, "", line));
    case Said(t, text) => PushKeeps(st, Plain(t, text, line));
    case ToolCall(id, name, input, summary) => AddToolKeeps(st, id, name, input, summary, line);
    case ToolResult(id, output, isError) => SetResultKeeps(st, id, output, isError);
    case UserSaid(parts) => OnUserBlocksKeeps(st, parts, line);
  }

  lemma OtherKeeps(st: State, m: Message, line: nat)
    requires Indexed(st) && !IsMinimax(m) && !IsPushed(m)
    ensures Keeps(st, Handle(st, m, line), MarkFree(m))
  {
    match m
    case Delta(thinking, text) => PushDeltaKeeps(st, if thinking then Thinking else Text, text, line);
    case Assistant(spent, blocks) =>
      SameKeeps(st, st.(usage := Add(st.usage, spent)));
      OnBlocksKeeps(st.(usage := Add(st.usage, spent)), blocks, line);
    case Result(session, text, isError, cost) =>
      SameKeeps(st, Settle(st, session, cost));
      FinalEventKeeps(Settle(st, session, cost), text, isError, line);
    case Spent(spent) => SameKeeps(st, st.(usage := Add(st.usage, spent)));
    case _ =>
  }

  lemma HandleKeeps(st: State, m: Message, line: nat, r: State)
    requires Indexed(st) && r == Handle(st, m, line)
    ensures Keeps(st, r, MarkFree(m))
  {
    if IsMinimax(m) {
      HandleMinimaxKeeps(st, m, line);
    } else if IsPushed(m) {
      HandlePushedKeeps(st, m, line);
    } else {
      OtherKeeps(st, m, line);
    }
  }

  predicate LineFree(m: Option<Message>) { m.Some? ==> MarkFree(m.value) }

  lemma LineKeeps(st: State, m: Option<Message>, r: State)
    requires Indexed(st) && r == Line(st, m)
    ensures Keeps(st, r, LineFree(m))
  {
    SameKeeps(st, Counted(st));
    if m.Some? { CountedKeeps(st, Counted(st), m.value, r); }
  }

  lemma CountedKeeps(st: State, counted: State, m: Message, r: State)
    requires Indexed(counted) && r == Handle(counted, m, counted.line)
    ensures Keeps(st, counted, true) ==> Keeps(st, r, MarkFree(m))
  {
    HandleKeeps(counted, m, counted.line, r);
    KeepsTwice(st, counted, r, MarkFree(m));
  }

  lemma KeepsTwice(a: State, b: State, c: State, free: bool)
    ensures Keeps(a, b, true) && Keeps(b, c, free) ==> Keeps(a, c, free)
  {
  }

  // ---------------------------------------------------------------- every feed

  /** No call of a feed is given an id that is a mark. */
  ghost predicate Free(ms: seq<Option<Message>>) { forall k :: 0 <= k < |ms| ==> LineFree(ms[k]) }

  lemma {:induction false} FoldKeeps(ms: seq<Option<Message>>)
    ensures TidyState(Fold(FRESH, ms)) && (Free(ms) ==> Owned(Fold(FRESH, ms)))
  {
    if ms != [] {
      FoldKeeps(ms[..|ms| - 1]);
      LineKeeps(Fold(FRESH, ms[..|ms| - 1]), ms[|ms| - 1], Fold(FRESH, ms));
    }
  }

  /**
   In every transcript thinking that belongs together is one block, and no error repeats one of the three events before
   it.
   */
  lemma EveryFeedTidy(ms: seq<Option<Message>>)
    ensures Tidy(Fold(FRESH, ms).events)
  {
    FoldKeeps(ms);
  }

  /** Every two calls have different ids. */
  ghost predicate DistinctCalls(events: seq<Event>) {
    forall j, k :: 0 <= j < k < |events| && events[j].t.Tool? && events[k].t.Tool? ==> events[j].id != events[k].id
  }

  /** Every call is found under its own id. */
  ghost predicate EachFound(st: State) {
    forall k: nat ::
        k < |st.events| && st.events[k].t.Tool? ==> st.events[k].id in st.byId && st.byId[st.events[k].id] == k
  }

  /**
   In every transcript whose calls were not given marks for ids, the id of a call leads to the last call that has it;
   so each call is found under its own id if and only if no two have the same.
   */
  lemma CallsFound(ms: seq<Option<Message>>, st: State)
    requires Free(ms) && st == Fold(FRESH, ms)
    ensures forall k: nat :: k < |st.events| && st.events[k].t.Tool? ==> Leads(st, k)
    ensures EachFound(st) <==> DistinctCalls(st.events)
  {
    FoldKeeps(ms);
  }

  /** And a result changes that call only: it is put there, and the call is no longer pending. */
  lemma ResultOnItsCall(ms: seq<Option<Message>>, st: State, k: nat, output: string, isError: bool)
    requires Free(ms) && st == Fold(FRESH, ms) && DistinctCalls(st.events) && k < |st.events| && st.events[k].t.Tool?
    ensures var r := Line(st, Some(ToolResult(st.events[k].id, output, isError)));
            && |r.events| == |st.events| && (forall j :: 0 <= j < |st.events| && j != k ==> r.events[j] == st.events[j])
            && r.events[k].output == Some(Cut(output, OUT_CAP)) && !r.events[k].pending
              && r.events[k].isError == isError
  {
    CallsFound(ms, st);
  }
}
