/**
 engine/transcript.js: the cache of parsed logs and `parse`. A log is read on from where it was left; the cache keeps
 the states of the files read last, within a number of files and a number of bytes.
 */
module Transcript {
  import opened Prelude
  import opened Lines
  import opened TranscriptScan
  import opened TranscriptLog
  import E = TranscriptEvents

  const CACHE_BYTES := 32 * 1024 * 1024
  const CACHE_FILES := 60

  datatype Entry = Entry(state: Log, bytes: nat)

  /** `parseText`: a whole stream at once; the unfinished rest counts as a line. */
  method ParseText(read: Reader, text: seq<Byte>) returns (st: Log)
    ensures fresh(st) && st.View() == Lined(read, E.FRESH, Split(text, NEWLINE))
  {
    st := new Log(read);
    st.TakeLines(Split(text, NEWLINE));
  }

  /**
   Of text that ends in a newline, parsing it at once says the same as reading the file: the events, the ids, the
   session
   and the totals. Only the line count is one more: the nothing behind the last newline counts as a line.
   */
  lemma BatchAgrees(read: Reader, text: seq<Byte>)
    requires Tail(text, NEWLINE) == []
    ensures Lined(read, E.FRESH, Split(text, NEWLINE))
        == WholeLines(read, text).(line := WholeLines(read, text).line + 1)
  {
    LinedAppend(read, E.FRESH, Complete(text, NEWLINE), [[]]);
    EmptyLine(read, WholeLines(read, text));
  }

  lemma EmptyLine(read: Reader, st: E.State)
    requires E.Indexed(st)
    ensures Lined(read, st, [[]]) == st.(line := st.line + 1)
  {
    var none: seq<seq<Byte>> := [[]];
    assert none[..0] == [];
    var nothing: seq<Option<E.Message>> := [None];
    assert nothing[..0] == [];
    assert Messages(read, none) == Messages(read, none[..0]) + [MessageOf(read, none[0])] == nothing;
    assert E.Fold(st, nothing) == E.Line(E.Fold(st, nothing[..0]), nothing[0]);
  }

  function BytesAt(entries: map<string, Entry>, f: string): nat { if f in entries then entries[f].bytes else 0 }

  function SizeOf(order: seq<string>, entries: map<string, Entry>): nat {
    if order == [] then 0 else BytesAt(entries, order[0]) + SizeOf(order[1..], entries)
  }

  ghost predicate Distinct(s: seq<string>) { forall i, j :: 0 <= i < j < |s| ==> s[i] != s[j] }

  lemma PutBack(entries: map<string, Entry>, file: string)
    requires file in entries
    ensures (entries - {file})[file := entries[file]] == entries
  {
  }

  /** What is there now begins with the complete lines of what was read exactly. */
  ghost predicate LinesStand(whole: Option<seq<Byte>>, disk: seq<Byte>) {
    whole.Some? && Stable(whole.value, NEWLINE) <= disk
  }

  class Cache {
    const read: Reader
    /** The length of an event's JSON. */
    const jsonLength: E.Event -> nat
    var entries: map<string, Entry>
    /** The files in the order a JavaScript Map keeps its keys: the one read longest ago first. */
    var order: seq<string>
    var cacheBytes: nat

    ghost function States(): set<Log>
      reads this
    {
      set f | f in entries :: entries[f].state
    }

    /** The account of the cache: its limits hold, and `cacheBytes` is the sum of its entries. */
    ghost predicate Balanced()
      reads this
    {
      && Distinct(order)
      && (forall f :: f in order <==> f in entries)
      && cacheBytes == SizeOf(order, entries) <= CACHE_BYTES
      && |order| <= CACHE_FILES
    }

    ghost predicate Valid()
      reads this, States()
    {
      Balanced() && Sound(read, entries)
    }

    constructor (read: Reader, jsonLength: E.Event -> nat)
      ensures Valid() && entries == map[] && this.read == read && this.jsonLength == jsonLength
    {
      this.read, this.jsonLength := read, jsonLength;
      entries, order, cacheBytes := map[], [], 0;
    }

    /** Forget a file's parsed state. */
    method Forget(file: string)
      requires Balanced()
      modifies this
      ensures Balanced() && entries == old(entries) - {file} && order == Without(old(order), file)
      ensures cacheBytes == old(cacheBytes) - BytesAt(old(entries), file)
    {
      WithoutKeeps(order, file);
      if file in entries {
        SizeWithout(order, entries, file);
        cacheBytes := cacheBytes - entries[file].bytes;
      }
      SizeFrame(Without(order, file), entries, entries - {file});
      if file !in entries { WithoutNothing(order, file); }
      entries := entries - {file};
      order := Without(order, file);
    }

    /** What the cache counts for a state. */
    function Bytes(st: Log): nat
      reads st
    {
      1024 + EventBytes(jsonLength, st.events) + 128 * |st.byId|
    }

    /** Forget the files read longest ago until there is room; no more of them than needed. */
    method MakeRoom(bytes: nat) returns (ghost k: nat)
      requires Balanced() && bytes <= CACHE_BYTES
      modifies this
      ensures Balanced() && k <= |old(order)| && order == old(order)[k..] && entries == Restrict(old(entries), order)
      ensures Room(order, old(entries), bytes)
      ensures forall j :: 0 <= j < k ==> !Room(old(order)[j..], old(entries), bytes)
    {
      k := 0;
      assert entries == Restrict(entries, order);
      while |order| >= CACHE_FILES || cacheBytes + bytes > CACHE_BYTES
        invariant Balanced() && k <= |old(order)| && order == old(order)[k..]
        invariant entries == Restrict(old(entries), order)
        invariant forall j :: 0 <= j < k ==> !Room(old(order)[j..], old(entries), bytes)
        decreases |order|
      {
        SizeRestrict(old(entries), order, order);
        RestrictRest(old(entries), order);
        WithoutFirst(order);
        Forget(order[0]);
        k := k + 1;
        assert old(order)[k - 1..][1..] == old(order)[k..];
      }
      SizeRestrict(old(entries), order, order);
    }

    /** The cache holds the new entry last, behind the longest run of the most recent others that leaves room for it. */
    ghost predicate Recalled(file: string, e: Entry, others: seq<string>, all: map<string, Entry>, k: nat)
      reads this
    {
      k <= |others| && order == others[k..] + [file]
        && Room(others[k..], all, e.bytes) && (forall j :: 0 <= j < k ==> !Room(others[j..], all, e.bytes))
        && entries == Restrict(all, others[k..])[file := e]
    }

    method Insert(file: string, e: Entry)
      requires Balanced() && file !in entries && Room(order, entries, e.bytes)
      modifies this
      ensures Balanced() && entries == old(entries)[file := e] && order == old(order) + [file]
    {
      SizeSnoc(order, entries, file, e);
      entries := entries[file := e];
      order := order + [file];
      cacheBytes := cacheBytes + e.bytes;
    }

    /** Forget a file; the other states are as they were. */
    method Drop(file: string)
      requires Valid()
      modifies this
      ensures Valid() && entries == old(entries) - {file} && order == Without(old(order), file)
    {
      Forget(file);
    }

    /** Make room for an entry and put it behind the others. */
    method Keep(file: string, e: Entry) returns (ghost k: nat)
      requires Balanced() && file !in entries && e.bytes <= CACHE_BYTES
      modifies this
      ensures Balanced() && Recalled(file, e, old(order), old(entries), k)
    {
      k := MakeRoom(e.bytes);
      SizeRestrict(old(entries), order, order);
      Insert(file, e);
    }

    /** Remember a state whose file is not in the cache. */
    method KeepState(file: string, e: Entry) returns (ghost k: nat)
      requires Valid() && file !in entries && e.bytes <= CACHE_BYTES
      requires e.state.Valid() && e.state.read == read && Alone(e.state, file, entries)
      modifies this
      ensures Valid() && Recalled(file, e, old(order), old(entries), k)
    {
      k := Keep(file, e);
    }

    /** The state takes the last place, in front of which others make room; one that is too big takes none. */
    method Remember(file: string, st: Log) returns (ghost k: nat)
      requires Valid() && st.Valid() && st.read == read && Alone(st, file, entries)
      modifies this
      ensures Valid()
      ensures Bytes(st) > CACHE_BYTES ==> entries == old(entries) - {file}
      ensures Bytes(st) <= CACHE_BYTES
          ==> Recalled(file, Entry(st, Bytes(st)), Without(old(order), file), old(entries) - {file}, k)
    {
      Drop(file);
      k := 0;
      if Bytes(st) <= CACHE_BYTES { k := KeepState(file, Entry(st, Bytes(st))); }
    }

    /** A cached state the file still reaches: reading goes on from it. */
    ghost predicate Resumes(file: string, disk: seq<Byte>)
      reads this, States()
    {
      file in entries && entries[file].state.offset <= |disk|
    }

    /** A file whose state is current is now the one read last. */
    method Touch(file: string)
      requires Balanced() && file in entries
      modifies this
      ensures Balanced() && entries == old(entries) && order == Without(old(order), file) + [file]
    {
      var entry := entries[file];
      SizeWithout(order, entries, file);
      PutBack(entries, file);
      Forget(file);
      Insert(file, entry);
    }

    /** The second half of `parse`: the state takes what was added, and the cache takes the state. */
    method ReadAndRemember(file: string, st: Log, disk: seq<Byte>)
      requires Valid() && st.Valid() && st.offset < |disk| && st.read == read && Alone(st, file, entries)
      modifies this, st
      ensures Valid() && st.Valid() && Settled(file, st, old(entries))
      ensures ReadOn(read, old(st.View()), old(st.offset), disk, st.View(), st.offset)
      ensures Fits(disk) && old(st.whole).Some? && Stable(old(st.whole).value, NEWLINE) <= disk
          ==> st.whole == Some(disk)
    {
      st.ReadFile(disk);
      Recall(file, st);
    }

    method Recall(file: string, st: Log)
      requires Valid() && st.Valid() && st.read == read && Alone(st, file, entries)
      modifies this
      ensures Valid() && Settled(file, st, old(entries))
    {
      var _ := Remember(file, st);
    }

    /** Only this file's entry may be another one now, and it holds this state. */
    ghost predicate Settled(file: string, st: Log, before: map<string, Entry>)
      reads this
    {
      && (forall f :: f in entries && f != file ==> f in before && entries[f] == before[f])
      && (file in entries ==> entries[file].state == st)
    }

    /** `parse` with a cached state the file still reaches. */
    method Resume(file: string, disk: seq<Byte>) returns (st: Log)
      requires Valid() && Resumes(file, disk)
      modifies this, entries[file].state
      ensures Valid() && st.Valid() && st == old(entries)[file].state && Settled(file, st, old(entries))
      ensures ReadOn(read, old(entries[file].state.View()), old(entries[file].state.offset), disk, st.View(), st.offset)
      ensures Fits(disk) && LinesStand(old(entries[file].state.whole), disk) ==> st.whole == Some(disk)
    {
      st := entries[file].state;
      if |disk| == st.offset {
        st.NothingAdded(disk);
        Touch(file);
      } else {
        ReadAndRemember(file, st, disk);
      }
    }

    /** A new state for a file whose old one, if any, is forgotten. */
    method Begin(file: string) returns (st: Log)
      requires Valid()
      modifies this
      ensures Valid() && st.Valid() && fresh(st) && st.View() == E.FRESH && st.offset == 0 && st.whole == Some([])
      ensures st.read == read && entries == old(entries) - {file} && Alone(st, file, entries)
    {
      Drop(file);
      st := new Log(read);
    }

    /** `parse` from the start of the file. */
    method Restart(file: string, disk: seq<Byte>) returns (st: Log)
      requires Valid()
      modifies this
      ensures Valid() && st.Valid() && fresh(st) && st.read == read && Settled(file, st, old(entries))
      ensures ReadOn(read, E.FRESH, 0, disk, st.View(), st.offset)
      ensures Fits(disk) ==> st.whole == Some(disk)
    {
      st := Begin(file);
      if |disk| == st.offset {
        assert disk == [];
      } else {
        ReadAndRemember(file, st, disk);
      }
    }

    /**
     Parse what was added to the file since the last call; `disk` is what the file holds now, or None when it is not
     there. A file shorter than what was read of it is read again from the start.
     */
    method Parse(file: string, disk: Option<seq<Byte>>) returns (st: Log)
      requires Valid()
      modifies this, if file in entries then {entries[file].state} else {}
      ensures Valid() && st.Valid() && st.read == read && Settled(file, st, old(entries))
      ensures disk.None? ==> fresh(st) && st.View() == E.FRESH && file !in entries
      ensures disk.Some? && old(Resumes(file, disk.value)) ==>
                && st == old(entries)[file].state
                && ReadOn(read, old(entries[file].state.View()), old(entries[file].state.offset), disk.value,
                  st.View(), st.offset)
                && (Fits(disk.value) && LinesStand(old(entries[file].state.whole), disk.value) ==> st.whole == disk)
      ensures disk.Some? && !old(Resumes(file, disk.value)) ==>
                && fresh(st)
                && ReadOn(read, E.FRESH, 0, disk.value, st.View(), st.offset)
                && (Fits(disk.value) ==> st.whole == disk)
    {
      if disk.None? {
        st := Begin(file);
      } else if file in entries && entries[file].state.offset <= |disk.value| {
        st := Resume(file, disk.value);
      } else {
        st := Restart(file, disk.value);
      }
    }
  }

  /** The cached states are valid, they read alike, and no two files share one. */
  ghost predicate Sound(read: Reader, entries: map<string, Entry>)
    reads set f | f in entries :: entries[f].state
  {
    && (forall f, g :: f in entries && g in entries && f != g ==> entries[f].state != entries[g].state)
    && (forall f :: f in entries ==> entries[f].state.Valid() && entries[f].state.read == read)
  }

  /** No other file's entry holds this state. */
  ghost predicate Alone(st: Log, file: string, entries: map<string, Entry>) {
    forall f :: f in entries && f != file ==> entries[f].state != st
  }

  /** The entries of some files only. */
  ghost function Restrict(entries: map<string, Entry>, order: seq<string>): map<string, Entry> {
    map f | f in order && f in entries :: entries[f]
  }

  lemma RestrictRest(all: map<string, Entry>, order: seq<string>)
    requires order != [] && Distinct(order)
    ensures Restrict(all, order) - {order[0]} == Restrict(all, order[1..])
  {
    assert order[0] !in order[1..];
    assert forall f :: f in order <==> f == order[0] || f in order[1..];
  }

  lemma {:induction false} SizeRestrict(all: map<string, Entry>, order: seq<string>, part: seq<string>)
    requires forall f :: f in part ==> f in order
    ensures SizeOf(part, Restrict(all, order)) == SizeOf(part, all)
  {
    if part != [] { SizeRestrict(all, order, part[1..]); }
  }

  function EventBytes(jsonLength: E.Event -> nat, events: seq<E.Event>): nat {
    if events == [] then 0
        else EventBytes(jsonLength, events[..|events| - 1]) + 2 * jsonLength(events[|events| - 1]) + 512
  }

  /** These files leave room for one more of this size. */
  predicate Room(order: seq<string>, entries: map<string, Entry>, bytes: nat) {
    |order| < CACHE_FILES && SizeOf(order, entries) + bytes <= CACHE_BYTES
  }

  function Without(order: seq<string>, file: string): (r: seq<string>)
    ensures |r| <= |order|
  {
    if order == [] then [] else if order[0] == file then Without(order[1..], file)
        else [order[0]] + Without(order[1..], file)
  }

  lemma {:induction false} WithoutKeeps(order: seq<string>, file: string)
    ensures forall f :: f in Without(order, file) <==> f in order && f != file
    ensures Distinct(order) ==> Distinct(Without(order, file))
  {
    if order != [] {
      WithoutKeeps(order[1..], file);
      assert forall f :: f in order <==> f == order[0] || f in order[1..];
      if Distinct(order) {
        assert order[0] !in order[1..];
        var r := Without(order, file);
        if order[0] != file {
          assert forall i ::
              0 < i < |r| ==> r[i] == Without(order[1..], file)[i - 1] && r[i] in Without(order[1..], file);
        }
      }
    }
  }

  lemma {:induction false} WithoutNothing(order: seq<string>, file: string)
    requires file !in order
    ensures Without(order, file) == order
  {
    if order != [] { WithoutNothing(order[1..], file); }
  }

  lemma {:induction false} SizeFrame(order: seq<string>, a: map<string, Entry>, b: map<string, Entry>)
    requires forall f :: f in order ==> BytesAt(a, f) == BytesAt(b, f)
    ensures SizeOf(order, a) == SizeOf(order, b)
  {
    if order != [] { SizeFrame(order[1..], a, b); }
  }

  lemma {:induction false} SizeWithout(order: seq<string>, entries: map<string, Entry>, file: string)
    requires Distinct(order) && file in order
    ensures |Without(order, file)| == |order| - 1
    ensures SizeOf(order, entries) == BytesAt(entries, file) + SizeOf(Without(order, file), entries)
  {
    if order[0] == file {
      assert file !in order[1..];
      WithoutNothing(order[1..], file);
    } else {
      WithoutKeeps(order[1..], file);
      SizeWithout(order[1..], entries, file);
      assert Without(order, file)[1..] == Without(order[1..], file);
    }
  }

  lemma WithoutFirst(order: seq<string>)
    requires Distinct(order) && order != []
    ensures Without(order, order[0]) == order[1..]
  {
    assert order[0] !in order[1..];
    WithoutNothing(order[1..], order[0]);
  }

  lemma {:induction false} SizeSnoc(order: seq<string>, entries: map<string, Entry>, file: string, e: Entry)
    requires file !in order
    ensures SizeOf(order + [file], entries[file := e]) == SizeOf(order, entries) + e.bytes
  {
    if order != [] {
      SizeSnoc(order[1..], entries, file, e);
      assert (order + [file])[1..] == order[1..] + [file];
    }
  }

  // ---------------------------------------------------------------- any sequence of calls

  /** One call: the file asked for and what it holds at that moment (None when it is not there). */
  datatype Call = Call(file: string, disk: Option<seq<Byte>>)

  /** What the last call for each file found. */
  type Lasts = map<string, Option<seq<Byte>>>

  function LastsOf(calls: seq<Call>): Lasts {
    if calls == [] then map[] else LastsOf(calls[..|calls| - 1])[calls[|calls| - 1].file := calls[|calls| - 1].disk]
  }

  function LastOf(last: Lasts, file: string): Option<seq<Byte>> { if file in last then last[file] else None }

  /** The file only grew behind the lines already complete, or it was cut below them. */
  ghost predicate Grew(before: Option<seq<Byte>>, disk: seq<Byte>) {
    before.Some? ==> Stable(before.value, NEWLINE) <= disk || |disk| < |Stable(before.value, NEWLINE)|
  }

  ghost predicate Honest(calls: seq<Call>) {
    forall k :: 0 <= k < |calls| && calls[k].disk.Some? ==>
      Fits(calls[k].disk.value) && Grew(LastOf(LastsOf(calls[..k]), calls[k].file), calls[k].disk.value)
  }

  /** What a call must answer: nothing of an earlier call shows. */
  function Answer(read: Reader, disk: Option<seq<Byte>>): E.State {
    if disk.Some? then WholeLines(read, disk.value) else E.FRESH
  }

  /** Every cached state has read exactly the complete lines its file held when it was last asked for. */
  ghost predicate Current(cache: Cache, last: Lasts)
    reads cache, cache.States()
  {
    forall f :: f in cache.entries ==> f in last && last[f].Some? && cache.entries[f].state.whole == last[f]
  }

  /** A cached state that is current and that the file still reaches has read lines the file still begins with. */
  lemma StillBegins(st: Log, before: Option<seq<Byte>>, disk: seq<Byte>)
    requires st.Valid() && st.offset <= |disk| && before.Some? && st.whole == before && Grew(before, disk)
    ensures Stable(st.whole.value, NEWLINE) <= disk
  {
  }

  /** What `Parse` leaves behind in terms of the files themselves. */
  method Ask(cache: Cache, ghost last: Lasts, c: Call) returns (st: Log)
    requires cache.Valid() && Current(cache, last)
    requires c.disk.Some? ==> Fits(c.disk.value) && Grew(LastOf(last, c.file), c.disk.value)
    modifies cache, if c.file in cache.entries then {cache.entries[c.file].state} else {}
    ensures cache.Valid() && st.Valid() && st.read == cache.read && cache.Settled(c.file, st, old(cache.entries))
    ensures if c.disk.Some? then st.whole == c.disk else st.View() == E.FRESH && c.file !in cache.entries
    ensures if old(c.file in cache.entries && c.disk.Some? && cache.entries[c.file].state.offset <= |c.disk.value|)
            then st == old(cache.entries)[c.file].state else fresh(st)
  {
    if c.disk.Some? && cache.Resumes(c.file, c.disk.value) {
      StillBegins(cache.entries[c.file].state, LastOf(last, c.file), c.disk.value);
    }
    st := cache.Parse(c.file, c.disk);
  }

  lemma CurrentAgain(cache: Cache, last: Lasts, c: Call, st: Log)
    requires forall f ::
        f in cache.entries && f != c.file ==> f in last && last[f].Some? && cache.entries[f].state.whole == last[f]
    requires c.file in cache.entries ==> c.disk.Some? && cache.entries[c.file].state.whole == c.disk
    ensures Current(cache, last[c.file := c.disk])
  {
  }

  lemma WholeAnswer(st: Log, disk: Option<seq<Byte>>)
    requires st.Valid()
    requires if disk.Some? then st.whole == disk else st.View() == E.FRESH
    ensures st.View() == Answer(st.read, disk)
  {
  }

  /** One call: the answer is the state of the file's complete lines, and the cache stays current. */
  method Poll(cache: Cache, ghost last: Lasts, c: Call) returns (st: Log)
    requires cache.Valid() && Current(cache, last)
    requires c.disk.Some? ==> Fits(c.disk.value) && Grew(LastOf(last, c.file), c.disk.value)
    modifies cache, cache.States()
    ensures cache.Valid() && Current(cache, last[c.file := c.disk])
    ensures st.View() == Answer(cache.read, c.disk)
    ensures forall x :: x in cache.States() ==> x in old(cache.States()) || fresh(x)
  {
    st := Ask(cache, last, c);
    WholeAnswer(st, c.disk);
    CurrentAgain(cache, last, c, st);
  }

  /**
   Any sequence of calls on a new cache, through hits, evictions, files that went away or were cut and states too big
   to keep: every answer is the state of folding exactly the complete lines the file holds at that moment.
   */
  method PollAll(read: Reader, jsonLength: E.Event -> nat, calls: seq<Call>) returns (answers: seq<E.State>)
    requires Honest(calls)
    ensures |answers| == |calls| && Answered(read, calls, answers)
  {
    var cache := new Cache(read, jsonLength);
    answers := [];
    for i := 0 to |calls|
      invariant cache.Valid() && cache.read == read && fresh(cache) && fresh(cache.States())
      invariant Current(cache, LastsOf(calls[..i]))
      invariant |answers| == i && Answered(read, calls, answers)
    {
      ghost var last := LastsOf(calls[..i]);
      LastsMore(calls, i);
      var st := Poll(cache, last, calls[i]);
      AnswersMore(read, calls, answers, st.View());
      answers := answers + [st.View()];
    }
  }

  ghost predicate Answered(read: Reader, calls: seq<Call>, answers: seq<E.State>) {
    |answers| <= |calls| && forall k :: 0 <= k < |answers| ==> answers[k] == Answer(read, calls[k].disk)
  }

  lemma AnswersMore(read: Reader, calls: seq<Call>, answers: seq<E.State>, view: E.State)
    requires Answered(read, calls, answers) && |answers| < |calls| && view == Answer(read, calls[|answers|].disk)
    ensures Answered(read, calls, answers + [view])
  {
  }

  lemma LastsMore(calls: seq<Call>, i: nat)
    requires i < |calls|
    ensures LastsOf(calls[..i + 1]) == LastsOf(calls[..i])[calls[i].file := calls[i].disk]
  {
    assert calls[..i + 1][..i] == calls[..i];
  }
}
