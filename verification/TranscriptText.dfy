/**
 What a reader of a transcript reads (engine/transcript.js): the words of streamed pieces, of merged thoughts, of the
 answer and of messages whose place was kept, told by what the feed said.
 */
module TranscriptText {
  import opened Prelude
  import opened TranscriptEvents

  /** The last characters of a text, so many at most. */
  predicate IsEnd(e: string, whole: string, most: nat) { |e| == Min(|whole|, most) && e == whole[|whole| - |e|..] }

  /** Texts one after the other, with something between them. */
  function Glue(texts: seq<string>, between: string): string {
    if texts == [] then ""
    else if |texts| == 1 then texts[0]
    else Glue(texts[..|texts| - 1], between) + between + texts[|texts| - 1]
  }

  /** One text is kept whole; of more, the end of them all. */
  predicate Spells(text: string, texts: seq<string>, between: string) {
    if |texts| == 1 then text == texts[0] else IsEnd(text, Glue(texts, between), MERGE_CAP)
  }

  /** Event k is the last of its kind. */
  ghost predicate LastIs(events: seq<Event>, t: Kind, k: nat) {
    k < |events| && events[k].t == t && forall j :: k < j < |events| ==> events[j].t != t
  }

  /** Nothing of a kind is open to be streamed on. */
  ghost predicate NoneOpen(events: seq<Event>, t: Kind) { forall k: nat :: LastIs(events, t, k) ==> !events[k].partial }

  lemma LastOfIs(events: seq<Event>, t: Kind, k: nat)
    requires LastIs(events, t, k)
    ensures LastOf(events, t, false) == Some(k) && (events[k].partial ==> LastOf(events, t, true) == Some(k))
  {
  }

  /** A text of which the end is kept, and more behind it: the end of them all is kept. */
  lemma EndOfMore(e: string, whole: string, more: string, most: nat)
    requires e == whole || IsEnd(e, whole, most)
    ensures IsEnd(Last(e + more, most), whole + more, most)
  {
    if e != whole {
      var all := whole + more;
      assert all == whole[..|whole| - |e|] + (e + more);
      EndOfEnd(whole[..|whole| - |e|], e + more, all, most);
    }
  }

  lemma EndOfEnd(head: string, tail: string, all: string, most: nat)
    requires all == head + tail && |tail| >= Min(|all|, most)
    ensures IsEnd(Last(tail, most), all, most)
  {
    assert tail == all[|head|..];
  }

  lemma SpellsMore(text: string, texts: seq<string>, between: string, more: string)
    requires texts != [] && Spells(text, texts, between)
    ensures Spells(Last(text + between + more, MERGE_CAP), texts + [more], between)
  {
    var all := texts + [more];
    assert all[..|all| - 1] == texts && text + between + more == text + (between + more);
    EndOfMore(text, Glue(texts, between), between + more, MERGE_CAP);
    assert Glue(all, between) == Glue(texts, between) + (between + more);
  }

  // ---------------------------------------------------------------- streamed pieces

  /** A line that holds a message is counted and the message handled. */
  lemma Handled(st: State, m: Option<Message>, r: State) returns (c: State)
    requires Indexed(st) && r == Line(st, m)
    ensures Indexed(c) && c.events == st.events && c.byId == st.byId && c.line == st.line + 1
    ensures c.session == st.session && c.cost == st.cost && c.usage == st.usage && c.turns == st.turns
    ensures m.Some? ==> r == Handle(c, m.value, c.line)
  {
    c := Counted(st);
  }

  function KindOf(thinking: bool): Kind { if thinking then Thinking else Text }

  /** A line that streams a piece, or says nothing to the transcript. */
  predicate Streams(m: Option<Message>) { m.Some? ==> m.value.Delta? || m.value.Other? }

  /** The pieces of one kind, in order. */
  function Pieces(ms: seq<Option<Message>>, thinking: bool): seq<string> {
    if ms == [] then []
    else
      var m := ms[|ms| - 1];
      Pieces(ms[..|ms| - 1], thinking) + if m.Some? && m.value.Delta? && m.value.thinking == thinking
          then [m.value.text] else []
  }

  /** The open event of a kind, the last of its kind, spells these pieces. */
  ghost predicate Open(events: seq<Event>, t: Kind, k: nat, pieces: seq<string>) {
    LastIs(events, t, k) && events[k].partial && Spells(events[k].text, pieces, "")
  }

  lemma DeltaGrows(st: State, t: Kind, piece: string, line: nat, k: nat, pieces: seq<string>, r: State)
    requires pieces != [] && Open(st.events, t, k, pieces) && r == PushDelta(st, t, piece, line)
    ensures Open(r.events, t, k, pieces + [piece])
  {
    LastOfIs(st.events, t, k);
    SpellsMore(st.events[k].text, pieces, "", piece);
    assert st.events[k].text + "" + piece == st.events[k].text + piece;
  }

  lemma DeltaStarts(st: State, t: Kind, piece: string, line: nat, r: State)
    requires NoneOpen(st.events, t) && r == PushDelta(st, t, piece, line)
    ensures r.events[..|st.events|] == st.events && |r.events| == |st.events| + 1
        && Open(r.events, t, |st.events|, [piece])
  {
    var k := LastOf(st.events, t, false);
    if k.Some? { assert LastIs(st.events, t, k.value); }
  }

  lemma DeltaElsewhere(st: State, t: Kind, piece: string, line: nat, other: Kind, r: State)
    requires t != other && r == PushDelta(st, t, piece, line)
    ensures |r.events| >= |st.events| && forall j ::
        0 <= j < |st.events| && st.events[j].t == other ==> r.events[j] == st.events[j]
    ensures forall j :: 0 <= j < |r.events| && r.events[j].t == other ==> j < |st.events| && st.events[j].t == other
  {
  }

  lemma OtherKept(a: seq<Event>, b: seq<Event>, t: Kind, k: nat, pieces: seq<string>)
    requires |b| >= |a| && forall j :: 0 <= j < |a| && a[j].t == t ==> b[j] == a[j]
    requires forall j :: 0 <= j < |b| && b[j].t == t ==> j < |a| && a[j].t == t
    ensures NoneOpen(a, t) ==> NoneOpen(b, t)
    ensures Open(a, t, k, pieces) ==> Open(b, t, k, pieces)
  {
    if NoneOpen(a, t) {
      forall j: nat | LastIs(b, t, j) ensures !b[j].partial { assert LastIs(a, t, j); }
    }
  }

  /** A line that streams a piece. */
  lemma StreamLine(st: State, thinking: bool, piece: string, r: State) returns (c: State)
    requires Indexed(st) && r == Line(st, Some(Delta(thinking, piece)))
    ensures c.events == st.events && r == PushDelta(c, KindOf(thinking), piece, c.line)
  {
    c := Handled(st, Some(Delta(thinking, piece)), r);
    HandleDelta(c, Delta(thinking, piece), c.line, r);
  }

  lemma HandleDelta(st: State, m: Message, line: nat, r: State)
    requires Indexed(st) && m.Delta? && r == Handle(st, m, line)
    ensures r == PushDelta(st, KindOf(m.thinking), m.text, line)
  {
  }

  lemma SilentLine(st: State, m: Option<Message>, r: State)
    requires Indexed(st) && Streams(m) && !(m.Some? && m.value.Delta?) && r == Line(st, m)
    ensures r.events == st.events
  {
    var c := Handled(st, m, r);
    if m.Some? { HandleOther(c, m.value, c.line, r); }
  }

  lemma HandleOther(st: State, m: Message, line: nat, r: State)
    requires Indexed(st) && m.Other? && r == Handle(st, m, line)
    ensures r == st
  {
  }

  /**
   Streamed pieces are read as one text that grows: after lines that only stream, on a transcript with nothing of that
   kind open, the last event of the kind is a new one, still open, and holds the pieces in order (the end of them, once
   they are long); pieces of the other kind between them do not matter.
   */
  lemma {:induction false} StreamSpells(st: State, ms: seq<Option<Message>>, thinking: bool, r: State) returns (k: nat)
    requires Indexed(st) && (forall i :: 0 <= i < |ms| ==> Streams(ms[i])) && NoneOpen(st.events, KindOf(thinking))
    requires r == Fold(st, ms)
    ensures |st.events| <= k && |st.events| <= |r.events|
    ensures if Pieces(ms, thinking) == [] then NoneOpen(r.events, KindOf(thinking))
            else Open(r.events, KindOf(thinking), k, Pieces(ms, thinking))
  {
    k := |st.events|;
    if ms != [] {
      var front, m := ms[..|ms| - 1], ms[|ms| - 1];
      var before := Fold(st, front);
      k := StreamSpells(st, front, thinking, before);
      k := StreamMore(before, m, thinking, r, k, Pieces(front, thinking));
    }
  }

  lemma StreamMore(st: State, m: Option<Message>, thinking: bool, r: State, at: nat, pieces: seq<string>)
        returns (k: nat)
    requires Indexed(st) && Streams(m) && r == Line(st, m)
    requires if pieces == [] then NoneOpen(st.events, KindOf(thinking))
        else Open(st.events, KindOf(thinking), at, pieces)
    ensures |r.events| >= |st.events| && (k == at || k == |st.events|)
    ensures var more := pieces + if m.Some? && m.value.Delta? && m.value.thinking == thinking then [m.value.text]
        else [];
            if more == [] then NoneOpen(r.events, KindOf(thinking)) else Open(r.events, KindOf(thinking), k, more)
  {
    k := at;
    if m.Some? && m.value.Delta? {
      var c := StreamLine(st, m.value.thinking, m.value.text, r);
      k := PieceMore(c, m.value.thinking, m.value.text, c.line, thinking, r, at, pieces);
    } else {
      SilentLine(st, m, r);
      assert pieces + [] == pieces;
    }
  }

  lemma PieceMore(st: State, streamed: bool, piece: string, line: nat, thinking: bool, r: State, at: nat,
        pieces: seq<string>)
    returns (k: nat)
    requires r == PushDelta(st, KindOf(streamed), piece, line)
    requires if pieces == [] then NoneOpen(st.events, KindOf(thinking))
        else Open(st.events, KindOf(thinking), at, pieces)
    ensures |r.events| >= |st.events| && (k == at || k == |st.events|)
    ensures var more := pieces + if streamed == thinking then [piece] else [];
            if more == [] then NoneOpen(r.events, KindOf(thinking)) else Open(r.events, KindOf(thinking), k, more)
  {
    k := at;
    if streamed != thinking {
      DeltaElsewhere(st, KindOf(streamed), piece, line, KindOf(thinking), r);
      OtherKept(st.events, r.events, KindOf(thinking), at, pieces);
      assert pieces + [] == pieces;
    } else if pieces == [] {
      k := |st.events|;
      DeltaStarts(st, KindOf(thinking), piece, line, r);
      assert pieces + [piece] == [piece];
    } else {
      DeltaGrows(st, KindOf(thinking), piece, line, at, pieces, r);
    }
  }

  // ---------------------------------------------------------------- whole messages

  /** A block of a whole message, of one kind; blank text is no block. */
  predicate IsBlock(b: Block, thinking: bool, words: string) {
    if thinking then b == ThinkingBlock(words) && words != "" else b == TextBlock(words) && Trim(words) != ""
  }

  lemma OneBlock(st: State, b: Block, line: nat, r: State)
    requires r == OnBlocks(st, [b], line)
    ensures r == OnBlock(st, b, line)
  {
    assert [b][..0] == [];
  }

  lemma HandleWhole(st: State, spent: Usage, b: Block, line: nat, r: State) returns (c: State)
    requires Indexed(st) && r == Handle(st, Assistant(spent, [b]), line)
    ensures c.events == st.events && r == OnBlock(c, b, line)
  {
    c := st.(usage := Add(st.usage, spent));
    OneBlock(c, b, line, r);
  }

  /** Event k holds these words and is not open; the others are as they were. */
  ghost predicate Replaced(a: seq<Event>, b: seq<Event>, k: nat, words: string) {
    && k < |a| == |b| && b[k].t == a[k].t && b[k].text == words && !b[k].partial
    && forall j :: 0 <= j < |a| && j != k ==> b[j] == a[j]
  }

  lemma BlockReplaces(st: State, b: Block, thinking: bool, words: string, line: nat, k: nat, r: State)
    requires LastIs(st.events, KindOf(thinking), k) && st.events[k].partial && IsBlock(b, thinking, words)
    requires r == OnBlock(st, b, line)
    ensures Replaced(st.events, r.events, k, words)
  {
    LastOfIs(st.events, KindOf(thinking), k);
  }

  /** A whole block takes the place of what was streamed of its kind: its own words, once, and nothing is open. */
  lemma WholeReplaces(st: State, spent: Usage, b: Block, thinking: bool, words: string, k: nat, r: State)
    requires Indexed(st) && LastIs(st.events, KindOf(thinking), k) && st.events[k].partial
        && IsBlock(b, thinking, words)
    requires r == Line(st, Some(Assistant(spent, [b])))
    ensures Replaced(st.events, r.events, k, words) && NoneOpen(r.events, KindOf(thinking))
  {
    var d := Handled(st, Some(Assistant(spent, [b])), r);
    var c := HandleWhole(d, spent, b, d.line, r);
    BlockReplaces(c, b, thinking, words, d.line, k, r);
  }

  /** So a message that was streamed and then came whole is one event with exactly its words. */
  lemma StreamThenWhole(st: State, ms: seq<Option<Message>>, thinking: bool, streamed: State, spent: Usage, b: Block,
        words: string, r: State) returns (k: nat)
    requires Indexed(st) && (forall i :: 0 <= i < |ms| ==> Streams(ms[i])) && NoneOpen(st.events, KindOf(thinking))
    requires streamed == Fold(st, ms) && Pieces(ms, thinking) != [] && IsBlock(b, thinking, words)
    requires r == Line(streamed, Some(Assistant(spent, [b])))
    ensures |st.events| <= k && Replaced(streamed.events, r.events, k, words) && LastIs(r.events, KindOf(thinking), k)
    ensures NoneOpen(r.events, KindOf(thinking))
  {
    k := StreamSpells(st, ms, thinking, streamed);
    WholeReplaces(streamed, spent, b, thinking, words, k, r);
  }

  // ---------------------------------------------------------------- thoughts

  function Thoughts(texts: seq<string>): seq<Option<Message>> {
    if texts == [] then [] else Thoughts(texts[..|texts| - 1]) + [Some(Said(Thinking, texts[|texts| - 1]))]
  }

  lemma SaidLine(st: State, t: Spoken, text: string, r: State) returns (c: State)
    requires Indexed(st) && r == Line(st, Some(Said(t, text)))
    ensures c.events == st.events && r == Push(c, Plain(t, text, c.line))
  {
    c := Handled(st, Some(Said(t, text)), r);
    HandleSaid(c, t, text, c.line, r);
  }

  lemma HandleSaid(st: State, t: Spoken, text: string, line: nat, r: State)
    requires Indexed(st) && r == Handle(st, Said(t, text), line)
    ensures r == Push(st, Plain(t, text, line))
  {
  }

  /** The last event is a thought that goes on. */
  predicate Thinks(events: seq<Event>) {
    events != [] && events[|events| - 1].t.Thinking? && !events[|events| - 1].mid
  }

  /** A thought that begins, or goes on: words and an empty line between them. */
  lemma ThoughtPushed(st: State, text: string, line: nat, r: State)
    requires r == Push(st, Plain(Thinking, text, line))
    ensures !Thinks(st.events) ==>
      |r.events| == |st.events| + 1 && r.events[..|st.events|] == st.events && Thinks(r.events)
          && r.events[|st.events|].text == text
    ensures Thinks(st.events) ==>
      |r.events| == |st.events| && r.events[..|st.events| - 1] == st.events[..|st.events| - 1] && Thinks(r.events)
      && r.events[|st.events| - 1].text == Last(st.events[|st.events| - 1].text + "\n\n" + text, MERGE_CAP)
  {
  }

  /** One new event behind these, a thought that spells the texts. */
  ghost predicate OneThought(before: seq<Event>, after: seq<Event>, texts: seq<string>) {
    && |after| == |before| + 1 && after[..|before|] == before && Thinks(after)
    && Spells(after[|before|].text, texts, "\n\n")
  }

  /** Thoughts in a row are one event: their words in order, with an empty line between two. */
  lemma {:induction false} ThoughtsGlued(st: State, texts: seq<string>, r: State)
    requires Indexed(st) && texts != [] && !Thinks(st.events) && r == Fold(st, Thoughts(texts))
    ensures OneThought(st.events, r.events, texts)
  {
    var front, last := texts[..|texts| - 1], texts[|texts| - 1];
    assert front + [last] == texts;
    var before := Fold(st, Thoughts(front));
    FoldThought(st, front, last, before, r);
    var c := SaidLine(before, Thinking, last, r);
    if front == [] {
      ThoughtPushed(c, last, c.line, r);
    } else {
      ThoughtsGlued(st, front, before);
      ThoughtMore(st.events, c, front, last, c.line, r);
    }
  }

  lemma ThoughtMore(given: seq<Event>, st: State, front: seq<string>, last: string, line: nat, r: State)
    requires front != [] && OneThought(given, st.events, front) && r == Push(st, Plain(Thinking, last, line))
    ensures OneThought(given, r.events, front + [last])
  {
    ThoughtPushed(st, last, line, r);
    SpellsMore(st.events[|given|].text, front, "\n\n", last);
  }

  lemma FoldThought(st: State, front: seq<string>, last: string, before: State, r: State)
    requires Indexed(st) && before == Fold(st, Thoughts(front)) && r == Fold(st, Thoughts(front + [last]))
    ensures r == Line(before, Some(Said(Thinking, last)))
  {
    ThoughtsMore(front, last);
    FoldOnce(st, Thoughts(front), Some(Said(Thinking, last)), Thoughts(front + [last]), before, r);
  }

  lemma ThoughtsMore(front: seq<string>, last: string)
    ensures Thoughts(front + [last]) == Thoughts(front) + [Some(Said(Thinking, last))]
  {
    assert (front + [last])[..|front|] == front;
  }

  lemma FoldOnce(st: State, front: seq<Option<Message>>, m: Option<Message>, ms: seq<Option<Message>>, before: State,
        r: State)
    requires Indexed(st) && ms == front + [m] && before == Fold(st, front) && r == Fold(st, ms)
    ensures r == Line(before, m)
  {
    assert ms[..|ms| - 1] == front;
  }

  // ---------------------------------------------------------------- the answer

  /** One of the last four events is an error that says this. */
  ghost predicate SaidAsError(events: seq<Event>, words: string) {
    exists j :: Max(0, |events| - 4) <= j < |events| && events[j].t.Error? && Trim(events[j].text) == words
  }

  lemma SaysErrorIff(events: seq<Event>, words: string)
    ensures SaysError(Last(events, 4), words) <==> SaidAsError(events, words)
  {
    var last := Last(events, 4);
    var from := |events| - |last|;
    forall j | from <= j < |events| ensures events[j] == last[j - from] && events[j] in last { }
    if SaysError(last, words) {
      var e :| e in last && e.t.Error? && Trim(e.text) == words;
      var i :| 0 <= i < |last| && last[i] == e;
      assert events[from + i] == e;
    }
  }

  /** The last event is the final one; it says the answer, or nothing where it is said already. */
  predicate Concludes(a: seq<Event>, b: seq<Event>, words: string, isError: bool) {
    |b| == |a| + 1 && b[|a|].t.Final? && b[|a|].text == words && b[|a|].isError == isError
  }

  /**
   The answer is read once. When one of the last four events said it as an error, or there is none, the final event says
   nothing; when the last message said it, that message is marked as the answer and the final event says nothing;
   otherwise the final event says it. Nothing else changes.
   */
  ghost predicate AnswerRead(a: seq<Event>, b: seq<Event>, words: string, isError: bool) {
    if words == "" || SaidAsError(a, words) then Concludes(a, b, "", isError) && b[..|a|] == a
    else
      && (forall k: nat ::
        LastIs(a, Text, k) && Trim(a[k].text) == words ==> Concludes(a, b, "", isError) && Marked(a, b, k))
      && ((forall k: nat :: LastIs(a, Text, k) ==> Trim(a[k].text) != words)
          ==> Concludes(a, b, words, isError) && b[..|a|] == a)
  }

  lemma AnswerOnce(st: State, text: string, isError: bool, line: nat, words: string, r: State)
    requires words == Trim(text) && r == FinalEvent(st, text, isError, line)
    ensures AnswerRead(st.events, r.events, words, isError)
  {
    SaysErrorIff(st.events, words);
    var k := LastOf(st.events, Text, false);
    if k.Some? { assert LastIs(st.events, Text, k.value); }
    forall j: nat | LastIs(st.events, Text, j) ensures k == Some(j) { LastOfIs(st.events, Text, j); }
    FinalIs(st, AnswerText(st, text), isError, line, k, r);
  }

  /** Event k is marked as the answer, and the others are as they were. */
  ghost predicate Marked(a: seq<Event>, b: seq<Event>, k: nat) {
    && k < |a| <= |b| && b[k].answer && b[k].text == a[k].text && b[k].t == a[k].t
    && forall j :: 0 <= j < |a| && j != k ==> b[j] == a[j]
  }

  lemma FinalIs(st: State, words: string, isError: bool, line: nat, k: Option<nat>, r: State)
    requires r == PutFinal(st, words, isError, line) && k == LastOf(st.events, Text, false)
    ensures if k.Some? && words != "" && Trim(st.events[k.value].text) == words
            then Concludes(st.events, r.events, "", isError) && Marked(st.events, r.events, k.value)
            else Concludes(st.events, r.events, words, isError) && r.events[..|st.events|] == st.events
  {
  }

  lemma HandleResult(st: State, session: string, text: string, isError: bool, cost: Option<real>, line: nat, r: State)
    requires Indexed(st) && r == Handle(st, Result(session, text, isError, cost), line)
    ensures r == OnResult(st, session, text, isError, cost, line)
  {
  }

  lemma ResultRead(st: State, session: string, text: string, isError: bool, cost: Option<real>, words: string, r: State)
    requires Indexed(st) && words == Trim(text) && r == Line(st, Some(Result(session, text, isError, cost)))
    ensures AnswerRead(st.events, r.events, words, isError)
  {
    var c := ResultLine(st, session, text, isError, cost, r);
    var d := Settled(c, session, text, isError, cost, c.line, r);
    AnswerOnce(d, text, isError, c.line, words, r);
  }

  lemma ResultLine(st: State, session: string, text: string, isError: bool, cost: Option<real>, r: State)
        returns (c: State)
    requires Indexed(st) && r == Line(st, Some(Result(session, text, isError, cost)))
    ensures c.events == st.events && Indexed(c) && r == OnResult(c, session, text, isError, cost, c.line)
    ensures c.session == st.session && c.cost == st.cost
  {
    c := Handled(st, Some(Result(session, text, isError, cost)), r);
    HandleResult(c, session, text, isError, cost, c.line, r);
  }

  lemma Settled(st: State, session: string, text: string, isError: bool, cost: Option<real>, line: nat, r: State)
    returns (c: State)
    requires Indexed(st) && r == OnResult(st, session, text, isError, cost, line)
    ensures c.events == st.events && r == FinalEvent(c, text, isError, line)
  {
    c := Settle(st, session, cost);
  }

  // ---------------------------------------------------------------- a message whose place is kept

  /** The message gives this key of the index to another event. */
  ghost predicate Takes(m: Message, key: string) {
    match m
    case ToolCall(id, _, _, _) => id == key
    case Assistant(_, blocks) => exists b :: b in blocks && b.ToolUse? && b.id == key
    case Item(id, _, _, _, _, _, _) => id == key
    case ItemStarted(id, _) => "m:" + id == key
    case _ => false
  }

  /** A key that marks a message's place, as no call's generated id does. */
  predicate IsMark(key: string) { "m:" <= key }

  predicate Leads(st: State, key: string, k: nat) { key in st.byId && st.byId[key] == k }

  lemma ToolLeads(st: State, id: string, name: string, input: string, summary: string, line: nat, key: string, k: nat)
    requires Leads(st, key, k) && IsMark(key) && id != key
    ensures Leads(AddTool(st, id, name, input, summary, line), key, k)
  {
    if id == "" { assert ToolId(st, id)[0] == 't'; }
  }

  lemma {:induction false} BlocksLead(st: State, bs: seq<Block>, line: nat, key: string, k: nat)
    requires Leads(st, key, k) && IsMark(key) && forall b :: b in bs && b.ToolUse? ==> b.id != key
    ensures Leads(OnBlocks(st, bs, line), key, k)
  {
    if bs != [] {
      var before, b := OnBlocks(st, bs[..|bs| - 1], line), bs[|bs| - 1];
      BlocksLead(st, bs[..|bs| - 1], line, key, k);
      if b.ToolUse? { ToolLeads(before, b.id, b.name, b.input, b.summary, line, key, k); }
    }
  }

  lemma {:induction false} PartsLead(st: State, bs: seq<UserBlock>, line: nat, key: string, k: nat)
    requires Indexed(st) && Leads(st, key, k)
    ensures Leads(OnUserBlocks(st, bs, line), key, k)
  {
    if bs != [] { PartsLead(st, bs[..|bs| - 1], line, key, k); }
  }

  lemma MinimaxLeads(st: State, m: Message, line: nat, key: string, k: nat, r: State)
    requires Indexed(st) && Leads(st, key, k) && IsMark(key) && !Takes(m, key) && IsMinimax(m)
        && r == HandleMinimax(st, m, line)
    ensures Leads(r, key, k)
  {
    if m.Item? && m.id !in st.byId {
      ToolLeads(st, m.id, m.name, if m.given.Some? then m.given.value else "", m.summary, line, key, k);
    }
  }

  lemma HandleLeads(st: State, m: Message, line: nat, key: string, k: nat, r: State)
    requires Indexed(st) && Leads(st, key, k) && IsMark(key) && !Takes(m, key) && r == Handle(st, m, line)
    ensures Leads(r, key, k)
  {
    if IsMinimax(m) {
      MinimaxLeads(st, m, line, key, k, r);
    } else if m.ToolCall? {
      ToolLeads(st, m.id, m.name, m.input, m.summary, line, key, k);
    } else if m.UserSaid? {
      PartsLead(st, m.parts, line, key, k);
    } else if m.Assistant? {
      BlocksLead(st.(usage := Add(st.usage, m.spent)), m.blocks, line, key, k);
    }
  }

  lemma LineLeads(st: State, m: Option<Message>, key: string, k: nat, r: State)
    requires Indexed(st) && Leads(st, key, k) && IsMark(key) && (m.Some? ==> !Takes(m.value, key)) && r == Line(st, m)
    ensures Leads(r, key, k)
  {
    var c := Handled(st, m, r);
    if m.Some? { HandleLeads(c, m.value, c.line, key, k, r); }
  }

  lemma {:induction false} FoldLeads(st: State, ms: seq<Option<Message>>, key: string, k: nat, r: State)
    requires Indexed(st) && Leads(st, key, k) && IsMark(key) && r == Fold(st, ms)
    requires forall i :: 0 <= i < |ms| && ms[i].Some? ==> !Takes(ms[i].value, key)
    ensures Leads(r, key, k)
  {
    if ms != [] {
      var before := Fold(st, ms[..|ms| - 1]);
      FoldLeads(st, ms[..|ms| - 1], key, k, before);
      LineLeads(before, ms[|ms| - 1], key, k, r);
    }
  }

  lemma {:induction false} FoldKeepsEvent(st: State, ms: seq<Option<Message>>, k: nat, r: State)
    requires Indexed(st) && k < |st.events| && r == Fold(st, ms)
    ensures k < |r.events| && r.events[k].t == st.events[k].t
  {
    if ms != [] {
      var before := Fold(st, ms[..|ms| - 1]);
      FoldKeepsEvent(st, ms[..|ms| - 1], k, before);
      KeepsKind(before, ms[|ms| - 1], k, r);
    }
  }

  lemma KeepsKind(st: State, m: Option<Message>, k: nat, r: State)
    requires Indexed(st) && k < |st.events| && r == Line(st, m)
    ensures k < |r.events| && r.events[k].t == st.events[k].t
  {
    assert SameEvent(st.events[k], r.events[k]);
  }

  lemma Started(st: State, id: string, thinking: bool, r: State)
    requires Indexed(st) && id != "" && r == Line(st, Some(ItemStarted(id, thinking)))
    ensures |r.events| == |st.events| + 1 && r.events[|st.events|].t == KindOf(thinking)
        && r.events[..|st.events|] == st.events
    ensures Leads(r, "m:" + id, |st.events|)
  {
    var c := Handled(st, Some(ItemStarted(id, thinking)), r);
    HandleStarted(c, id, thinking, c.line, r);
  }

  lemma HandleStarted(st: State, id: string, thinking: bool, line: nat, r: State)
    requires Indexed(st) && id != "" && r == Handle(st, ItemStarted(id, thinking), line)
    ensures |r.events| == |st.events| + 1 && r.events[|st.events|].t == KindOf(thinking)
        && r.events[..|st.events|] == st.events
    ensures Leads(r, "m:" + id, |st.events|)
  {
  }

  lemma Completes(st: State, id: string, what: Completed, text: string, isError: bool, k: nat, r: State)
    requires Indexed(st) && Leads(st, "m:" + id, k) && r == Line(st, Some(ItemCompleted(id, what, text, isError)))
    ensures k < |st.events| == |r.events| && r.events[k].t == st.events[k].t
    ensures r.events[k].text == (if text != "" then text else st.events[k].text)
    ensures forall j :: 0 <= j < |st.events| && j != k ==> r.events[j] == st.events[j]
  {
    var c := Handled(st, Some(ItemCompleted(id, what, text, isError)), r);
    HandleCompleted(c, id, what, text, isError, c.line, k, r);
  }

  lemma HandleCompleted(st: State, id: string, what: Completed, text: string, isError: bool, line: nat, k: nat,
        r: State)
    requires Indexed(st) && Leads(st, "m:" + id, k) && r == Handle(st, ItemCompleted(id, what, text, isError), line)
    ensures k < |st.events| == |r.events| && r.events[k].t == st.events[k].t
    ensures r.events[k].text == (if text != "" then text else st.events[k].text)
    ensures forall j :: 0 <= j < |st.events| && j != k ==> r.events[j] == st.events[j]
  {
  }

  /**
   A message or a thought keeps the place it had when it started: whatever comes before it is complete stands behind it,
   and its words, when they come, are put in that place, and nowhere else.
   */
  lemma PlaceKept(st: State, id: string, thinking: bool, ms: seq<Option<Message>>, before: State, what: Completed,
        text: string,
        isError: bool, r: State)
    requires Indexed(st) && id != "" && text != ""
    requires forall i :: 0 <= i < |ms| && ms[i].Some? ==> !Takes(ms[i].value, "m:" + id)
    requires before == Fold(Line(st, Some(ItemStarted(id, thinking))), ms)
    requires r == Line(before, Some(ItemCompleted(id, what, text, isError)))
    ensures |st.events| < |before.events| == |r.events|
    ensures r.events[|st.events|].t == KindOf(thinking) && r.events[|st.events|].text == text
    ensures forall j :: 0 <= j < |r.events| && j != |st.events| ==> r.events[j] == before.events[j]
  {
    var k, first := |st.events|, Line(st, Some(ItemStarted(id, thinking)));
    Started(st, id, thinking, first);
    FoldLeads(first, ms, "m:" + id, k, before);
    FoldKeepsEvent(first, ms, k, before);
    Completes(before, id, what, text, isError, k, r);
  }

  // ---------------------------------------------------------------- calls and their results

  /** A text is kept up to a length, and how much was left out is told. */
  predicate Clips(c: Clip, text: string, most: nat) {
    |c.text| == Min(|text|, most) && c.text == text[..|c.text|] && c.more == |text| - |c.text|
  }

  /** A call as it was made, waiting for its result. */
  predicate CallOf(e: Event, name: string, input: string, summary: string) {
    e.t.Tool? && e.name == (if name != "" then name else "tool") && e.summary == summary
        && Clips(e.input, input, INPUT_CAP)
    && e.pending && e.output.None?
  }

  lemma CallMade(st: State, id: string, name: string, input: string, summary: string, r: State)
    requires Indexed(st) && r == Line(st, Some(ToolCall(id, name, input, summary)))
    ensures |r.events| == |st.events| + 1 && r.events[..|st.events|] == st.events
    ensures CallOf(r.events[|st.events|], name, input, summary)
  {
    var c := Handled(st, Some(ToolCall(id, name, input, summary)), r);
    HandleCall(c, id, name, input, summary, c.line, r);
  }

  lemma HandleCall(st: State, id: string, name: string, input: string, summary: string, line: nat, r: State)
    requires Indexed(st) && r == Handle(st, ToolCall(id, name, input, summary), line)
    ensures |r.events| == |st.events| + 1 && r.events[..|st.events|] == st.events
    ensures CallOf(r.events[|st.events|], name, input, summary)
  {
    assert r == AddTool(st, id, name, input, summary, line);
  }

  /** What an item says of its call: an input that is given is taken once, an answer or its end settles it. */
  predicate ItemRead(m: Message, made: bool, e: Event, after: Event)
    requires m.Item?
  {
    && (m.given.Some? && (made || e.summary == "") ==> Clips(after.input, m.given.value, INPUT_CAP))
    && (!made && !(m.given.Some? && e.summary == "") ==> after.input == e.input && after.summary == e.summary)
    && (if m.answered.Some? || m.completed then
          && after.output.Some? && Clips(after.output.value, if m.answered.Some? then m.answered.value else "", OUT_CAP)
          && !after.pending && after.isError == m.isError
        else after.output == (if made then None else e.output) && after.pending == (made || e.pending))
  }

  /**
   An item of a call goes to the call its id leads to, or makes it: its input is taken once, when it comes; its output
   when it comes, or when the item is complete; and no other event changes.
   */
  lemma ItemLands(st: State, m: Message, k: nat, made: bool, r: State)
    requires Indexed(st) && m.Item? && m.id != "" && r == Line(st, Some(m)) && made == (m.id !in st.byId)
    requires k == if made then |st.events| else st.byId[m.id]
    ensures |r.events| == (if made then |st.events| + 1 else |st.events|) && Leads(r, m.id, k)
    ensures made ==> r.events[k].t.Tool? && r.events[k].id == m.id
    ensures if made then ItemRead(m, true, r.events[k], r.events[k]) else ItemRead(m, false, st.events[k], r.events[k])
    ensures forall j :: 0 <= j < |st.events| && j != k ==> r.events[j] == st.events[j]
  {
    var c := ItemLine(st, m, r);
    if made { ItemNew(c, m, c.line, r); } else { ItemKnown(c, m, c.line, k, r); }
  }

  lemma ItemLine(st: State, m: Message, r: State) returns (c: State)
    requires Indexed(st) && m.Item? && r == Line(st, Some(m))
    ensures c.events == st.events && c.byId == st.byId && Indexed(c) && r == OnItem(c, m, c.line)
  {
    c := Handled(st, Some(m), r);
    HandleItem(c, m, c.line, r);
  }

  lemma HandleItem(st: State, m: Message, line: nat, r: State)
    requires Indexed(st) && m.Item? && r == Handle(st, m, line)
    ensures r == OnItem(st, m, line)
  {
  }

  lemma ItemKnown(st: State, m: Message, line: nat, k: nat, r: State)
    requires Indexed(st) && m.Item? && Leads(st, m.id, k) && r == OnItem(st, m, line)
    ensures |r.events| == |st.events| && Leads(r, m.id, k) && ItemRead(m, false, st.events[k], r.events[k])
    ensures forall j :: 0 <= j < |r.events| && j != k ==> r.events[j] == st.events[j]
  {
    ItemFilled(st, m, k, r);
  }

  lemma ItemNew(st: State, m: Message, line: nat, r: State)
    requires Indexed(st) && m.Item? && m.id != "" && m.id !in st.byId && r == OnItem(st, m, line)
    ensures var k := |st.events|;
            |r.events| == k + 1 && Leads(r, m.id, k) && r.events[k].t.Tool? && r.events[k].id == m.id
            && ItemRead(m, true, r.events[k], r.events[k]) && forall j :: 0 <= j < k ==> r.events[j] == st.events[j]
  {
    var found := AddTool(st, m.id, m.name, if m.given.Some? then m.given.value else "", m.summary, line);
    ItemFresh(st, m, line, found, |st.events|);
    ItemFilled(found, m, |st.events|, r);
    NewRead(m, found.events[|st.events|], r.events[|st.events|]);
  }

  lemma NewRead(m: Message, e: Event, after: Event)
    requires m.Item? && ItemRead(m, false, e, after) && e.pending && e.output.None?
    requires m.given.Some? ==> Clips(e.input, m.given.value, INPUT_CAP)
    ensures ItemRead(m, true, after, after)
  {
  }

  lemma ItemFresh(st: State, m: Message, line: nat, found: State, k: nat)
    requires m.Item? && m.id != "" && k == |st.events|
    requires found == AddTool(st, m.id, m.name, if m.given.Some? then m.given.value else "", m.summary, line)
    ensures |found.events| == k + 1 && found.events[..k] == st.events && Leads(found, m.id, k)
    ensures found.events[k].t.Tool? && found.events[k].id == m.id && found.events[k].pending
        && found.events[k].output.None?
    ensures m.given.Some? ==> Clips(found.events[k].input, m.given.value, INPUT_CAP)
  {
  }

  /** An event that is there gets what an item says. */
  lemma ItemFilled(found: State, m: Message, k: nat, r: State)
    requires Indexed(found) && m.Item? && Leads(found, m.id, k)
    requires r == if m.answered.Some? || m.completed
                  then SetResult(FillInput(found, k, m.given, m.summary), m.id, if m.answered.Some?
                      then m.answered.value else "", m.isError)
                  else FillInput(found, k, m.given, m.summary)
    ensures |r.events| == |found.events| && r.byId == found.byId && r.events[k].t == found.events[k].t
        && r.events[k].id == found.events[k].id
    ensures ItemRead(m, false, found.events[k], r.events[k])
    ensures forall j :: 0 <= j < |r.events| && j != k ==> r.events[j] == found.events[j]
  {
  }

  // ---------------------------------------------------------------- the other messages

  /** One new event behind the others, of a kind and with these words, that is not open. */
  ghost predicate Adds(a: seq<Event>, b: seq<Event>, t: Kind, words: string) {
    |b| == |a| + 1 && b[..|a|] == a && b[|a|].t == t && b[|a|].text == words && !b[|a|].partial
  }

  /** A whole text that nothing was streamed of is a new event; a blank one is none. */
  lemma TextRead(st: State, spent: Usage, words: string, r: State)
    requires Indexed(st) && (forall e :: e in st.events && e.t.Text? ==> !e.partial)
    requires r == Line(st, Some(Assistant(spent, [TextBlock(words)])))
    ensures if Trim(words) == "" then r.events == st.events else Adds(st.events, r.events, Text, words)
  {
    var d := Handled(st, Some(Assistant(spent, [TextBlock(words)])), r);
    var c := HandleWhole(d, spent, TextBlock(words), d.line, r);
    TextBlockRead(c, words, d.line, r);
  }

  lemma TextBlockRead(st: State, words: string, line: nat, r: State)
    requires (forall e :: e in st.events && e.t.Text? ==> !e.partial) && r == OnBlock(st, TextBlock(words), line)
    ensures if Trim(words) == "" then r.events == st.events else Adds(st.events, r.events, Text, words)
  {
    assert forall k :: 0 <= k < |st.events| ==> st.events[k] in st.events;
  }

  /** What a user says is an event of its own. */
  lemma WordsRead(st: State, words: string, r: State)
    requires Indexed(st) && r == Line(st, Some(UserSaid([Words(words)])))
    ensures Adds(st.events, r.events, User, words)
  {
    var c := Handled(st, Some(UserSaid([Words(words)])), r);
    HandleWords(c, words, c.line, r);
  }

  lemma HandleWords(st: State, words: string, line: nat, r: State)
    requires Indexed(st) && r == Handle(st, UserSaid([Words(words)]), line)
    ensures Adds(st.events, r.events, User, words)
  {
    assert [Words(words)][..0] == [];
    assert OnUserBlocks(st, [Words(words)], line) == OnUserBlock(st, Words(words), line);
  }

  /** A completed item whose place was not kept: a message or a thought comes last, an output goes to its call. */
  lemma UnplacedRead(st: State, id: string, what: Completed, text: string, isError: bool, r: State)
    requires Indexed(st) && "m:" + id !in st.byId && r == Line(st, Some(ItemCompleted(id, what, text, isError)))
    ensures what.AgentMessage? ==> Adds(st.events, r.events, Text, text)
    ensures what.Reasoning? && !Thinks(st.events) ==> Adds(st.events, r.events, Thinking, text)
    ensures what.ToolOutput? && id in st.byId ==>
      |r.events| == |st.events|
          && (forall j :: 0 <= j < |st.events| && j != st.byId[id] ==> r.events[j] == st.events[j])
      && r.events[st.byId[id]].output.Some? && Clips(r.events[st.byId[id]].output.value, text, OUT_CAP)
      && !r.events[st.byId[id]].pending && r.events[st.byId[id]].isError == isError
  {
    var c := Handled(st, Some(ItemCompleted(id, what, text, isError)), r);
    HandleUnplaced(c, id, what, text, isError, c.line, r);
  }

  lemma HandleUnplaced(st: State, id: string, what: Completed, text: string, isError: bool, line: nat, r: State)
    requires Indexed(st) && "m:" + id !in st.byId && r == Handle(st, ItemCompleted(id, what, text, isError), line)
    ensures what.AgentMessage? ==> Adds(st.events, r.events, Text, text)
    ensures what.Reasoning? && !Thinks(st.events) ==> Adds(st.events, r.events, Thinking, text)
    ensures what.ToolOutput? && id in st.byId ==>
      |r.events| == |st.events|
          && (forall j :: 0 <= j < |st.events| && j != st.byId[id] ==> r.events[j] == st.events[j])
      && r.events[st.byId[id]].output.Some? && Clips(r.events[st.byId[id]].output.value, text, OUT_CAP)
      && !r.events[st.byId[id]].pending && r.events[st.byId[id]].isError == isError
  {
  }

  /** The end of an exec says the answer as a result line does. */
  lemma ExecRead(st: State, report: Option<Report>, text: string, isError: bool, words: string, r: State)
    requires Indexed(st) && words == Trim(text) && r == Line(st, Some(ExecCompleted(report, text, isError)))
    ensures AnswerRead(st.events, r.events, words, isError)
  {
    var d := ExecLine(st, report, text, isError, r);
    var c := Reckoned(d, report, text, isError, d.line, r);
    AnswerOnce(c, text, isError, d.line, words, r);
  }

  lemma ExecLine(st: State, report: Option<Report>, text: string, isError: bool, r: State) returns (c: State)
    requires Indexed(st) && r == Line(st, Some(ExecCompleted(report, text, isError)))
    ensures c.events == st.events && Indexed(c) && r == OnExec(c, report, text, isError, c.line)
  {
    c := Handled(st, Some(ExecCompleted(report, text, isError)), r);
    HandleExec(c, report, text, isError, c.line, r);
  }

  lemma HandleExec(st: State, report: Option<Report>, text: string, isError: bool, line: nat, r: State)
    requires Indexed(st) && r == Handle(st, ExecCompleted(report, text, isError), line)
    ensures r == OnExec(st, report, text, isError, line)
  {
  }

  lemma Reckoned(st: State, report: Option<Report>, text: string, isError: bool, line: nat, r: State) returns (c: State)
    requires Indexed(st) && r == OnExec(st, report, text, isError, line)
    ensures c.events == st.events && r == FinalEvent(c, text, isError, line)
  {
    c := MinimaxUsage(st, report);
  }

  // ---------------------------------------------------------------- the session and what it cost

  /** The session a message names, if it does. */
  function NamesSession(m: Option<Message>): Option<string> {
    if m.None? then None
    else match m.value
      case Start(session) => Some(session)
      case Result(session, _, _, _) => if session == "" then None else Some(session)
      case _ => None
  }

  /** What a message says a run has cost. */
  function Costs(m: Option<Message>): Option<real> { if m.Some? && m.value.Result? then m.value.cost else None }

  /** The last session named, and all that was said to have been spent. */
  function SessionOf(ms: seq<Option<Message>>): Option<string> {
    if ms == [] then None
    else if NamesSession(ms[|ms| - 1]).Some? then NamesSession(ms[|ms| - 1]) else SessionOf(ms[..|ms| - 1])
  }

  function SumCosts(ms: seq<Option<Message>>): real {
    if ms == [] then 0.0
    else SumCosts(ms[..|ms| - 1]) + if Costs(ms[|ms| - 1]).Some? then Costs(ms[|ms| - 1]).value else 0.0
  }

  /** Of a state: its session, and its cost, which is there once one was told. */
  ghost predicate Billed(st: State, session: Option<string>, told: bool, cost: real) {
    st.session == session && (st.cost.Some? <==> told) && (st.cost.Some? ==> st.cost.value == cost)
        && (!told ==> cost == 0.0)
  }

  lemma HandleStart(st: State, session: string, line: nat, r: State)
    requires Indexed(st) && r == Handle(st, Start(session), line)
    ensures r.session == Some(session) && r.cost == st.cost
  {
  }

  ghost predicate SettledFrom(st: State, session: string, cost: Option<real>, r: State) {
    && r.session == (if session != "" then Some(session) else st.session)
    && r.cost == if cost.None? then st.cost else Some(OrZero(st.cost) + cost.value)
  }

  lemma ResultBills(st: State, session: string, text: string, isError: bool, cost: Option<real>, line: nat, r: State)
    requires Indexed(st) && r == OnResult(st, session, text, isError, cost, line)
    ensures SettledFrom(st, session, cost, r)
  {
    var c := Settle(st, session, cost);
    assert SameUsage(c, FinalEvent(c, text, isError, line));
  }

  function LaterOf(a: Option<string>, b: Option<string>): Option<string> { if b.Some? then b else a }

  function OrZero(cost: Option<real>): real { if cost.Some? then cost.value else 0.0 }

  /** What a message does to the session and the cost. */
  ghost predicate BilledBy(st: State, m: Message, r: State) {
    && r.session == LaterOf(st.session, NamesSession(Some(m)))
    && r.cost == if Costs(Some(m)).None? then st.cost else Some(OrZero(st.cost) + OrZero(Costs(Some(m))))
  }

  lemma StartBilled(st: State, session: string, r: State)
    requires Indexed(st) && r == Line(st, Some(Start(session)))
    ensures BilledBy(st, Start(session), r)
  {
    var c := Handled(st, Some(Start(session)), r);
    HandleStart(c, session, c.line, r);
  }

  lemma ResultBilled(st: State, session: string, text: string, isError: bool, cost: Option<real>, r: State)
    requires Indexed(st) && r == Line(st, Some(Result(session, text, isError, cost)))
    ensures BilledBy(st, Result(session, text, isError, cost), r)
  {
    var c := ResultLine(st, session, text, isError, cost, r);
    ResultBills(c, session, text, isError, cost, c.line, r);
    ResultSays(st, c, session, text, isError, cost, r);
  }

  lemma ResultSays(st: State, c: State, session: string, text: string, isError: bool, cost: Option<real>, r: State)
    requires c.session == st.session && c.cost == st.cost && SettledFrom(c, session, cost, r)
    ensures BilledBy(st, Result(session, text, isError, cost), r)
  {
  }

  /** Some line told a cost. */
  ghost predicate Told(ms: seq<Option<Message>>) { exists k :: 0 <= k < |ms| && Costs(ms[k]).Some? }

  lemma BilledMore(ms: seq<Option<Message>>, front: seq<Option<Message>>, st: State, r: State)
    requires ms != [] && front == ms[..|ms| - 1] && Billed(st, SessionOf(front), Told(front), SumCosts(front))
    requires if ms[|ms| - 1].Some? then BilledBy(st, ms[|ms| - 1].value, r) else SameBill(st, r)
    ensures Billed(r, SessionOf(ms), Told(ms), SumCosts(ms))
  {
    assert forall k :: 0 <= k < |front| ==> front[k] == ms[k];
    assert Told(ms) <==> Told(front) || Costs(ms[|ms| - 1]).Some?;
  }

  /** In every transcript the session is the last one named, and the cost the sum of all that was told, if any was. */
  lemma {:induction false} SessionAndCost(ms: seq<Option<Message>>, r: State)
    requires r == Fold(FRESH, ms)
    ensures Billed(r, SessionOf(ms), Told(ms), SumCosts(ms))
  {
    if ms != [] {
      var front, m := ms[..|ms| - 1], ms[|ms| - 1];
      var before := Fold(FRESH, front);
      assert ms == front + [m];
      SessionAndCost(front, before);
      FoldOnce(FRESH, front, m, ms, before, r);
      LineOrNone(before, m, r);
      BilledMore(ms, front, before, r);
    }
  }

  lemma LineOrNone(st: State, m: Option<Message>, r: State)
    requires Indexed(st) && r == Line(st, m)
    ensures if m.Some? then BilledBy(st, m.value, r) else SameBill(st, r)
  {
    if m.Some? && m.value.Start? {
      StartBilled(st, m.value.session, r);
    } else if m.Some? && m.value.Result? {
      ResultBilled(st, m.value.session, m.value.text, m.value.isError, m.value.cost, r);
    }
  }

  // ---------------------------------------------------------------- the tokens of one report

  /** The turn a report is of: the ids on the event come before those on its payload. */
  predicate OfTurn(r: Report, run: string, turn: string) {
    (if r.runId != "" then r.runId == run else r.payloadRunId == run)
    && (if r.turnId != "" then r.turnId == turn else r.payloadTurnId == turn)
  }

  /**
   A first report of a turn adds its tokens, those read from the cache to the prompt as well; the same one again adds
   none.
   */
  lemma ReportOnce(st: State, r: Report, run: string, turn: string)
    requires OfTurn(r, run, turn) && run + ":" + turn !in st.turns
    requires r.tokens.input >= 0 && r.tokens.output >= 0 && r.tokens.cached >= 0
    ensures var once := MinimaxUsage(st, Some(r));
      && once.usage == Usage(st.usage.input + r.tokens.input + r.tokens.cached, st.usage.output + r.tokens.output,
                             st.usage.cached + r.tokens.cached)
      && MinimaxUsage(once, Some(r)).usage == once.usage && once.turns.Keys == st.turns.Keys + {run + ":" + turn}
  {
  }
}
