/**
 Notes that name a job, and what `annotate` (engine/chain.js) makes of them: the job is followed to where its chain
 ended, and the attempt is told to be done, or at work, when that end is.
 */
module AnnotateNotes {
  import opened Prelude
  import opened Chain
  import opened Annotate
  import opened AnnotateEnds

  /** The first of some keys that is an attempt. */
  ghost predicate FirstThere(at: Attempts, keys: seq<string>, k: string) {
    exists i :: 0 <= i < |keys| && keys[i] == k && k in at && forall j :: 0 <= j < i ==> keys[j] !in at
  }

  /** The note of an attempt, "" when there is none. */
  function NoteAt(at: Attempts, key: string): string {
    if key in at && at[key].resolved.Some? then at[key].resolved.value.note else ""
  }

  predicate Mentions(rules: Rules, at: Attempts, note: string) { exists m :: m in rules.mentions(note) && m in at }

  /**
   The job a note is about: the first one that is there and that the end's own note names; else that this one names.
   */
  ghost predicate About(rules: Rules, at: Attempts, res: Resolved, k: string) {
    var note := if res.byKey != "" && Mentions(rules, at, NoteAt(at, res.byKey)) then NoteAt(at, res.byKey)
        else res.note;
    FirstThere(at, rules.mentions(note), k)
  }

  lemma {:induction false} FirstInThere(at: Attempts, keys: seq<string>, k: string)
    ensures FirstThere(at, keys, k) <==> FirstIn(at, keys) == Some(k)
  {
    if keys != [] {
      FirstInThere(at, keys[1..], k);
      if keys[0] !in at { ThereBehind(at, keys, k); }
    }
  }

  lemma ThereBehind(at: Attempts, keys: seq<string>, k: string)
    requires keys != [] && keys[0] !in at
    ensures FirstThere(at, keys, k) <==> FirstThere(at, keys[1..], k)
  {
    var rest := keys[1..];
    if FirstThere(at, keys, k) {
      var i :| 0 <= i < |keys| && keys[i] == k && k in at && forall j :: 0 <= j < i ==> keys[j] !in at;
      assert rest[i - 1] == k && forall j :: 0 <= j < i - 1 ==> rest[j] == keys[j + 1];
    }
    if FirstThere(at, rest, k) {
      var i :| 0 <= i < |rest| && rest[i] == k && k in at && forall j :: 0 <= j < i ==> rest[j] !in at;
      assert keys[i + 1] == k && forall j :: 0 < j < i + 1 ==> keys[j] == rest[j - 1];
    }
  }

  lemma AboutIff(rules: Rules, at: Attempts, res: Resolved, k: string)
    ensures About(rules, at, res, k) <==> NamedBy(rules, at, res) == Some(k)
  {
    FirstInThere(at, rules.mentions(NoteAt(at, res.byKey)), k);
    FirstInThere(at, rules.mentions(res.note), k);
  }

  /** An attempt that is done or at work. */
  predicate Served(a: Attempt) { a.status.Done? || Active(a.status) }

  /** The path begins with the attempt, passes through its first end and the job's trail, and ends in the job's end. */
  ghost predicate PathThrough(key: string, via: string, trail: seq<string>, at: Attempts, path: seq<string>) {
    && path != [] && path[0] == key
    && (forall x :: x in path <==> x == key || x in trail || (x == via && x != "" && x in at))
    && (via != "" && via in at && via != key && via !in trail ==> |path| > 1 && path[1] == via)
    && (trail != [] && trail[|trail| - 1] != key ==> path[|path| - 1] == trail[|trail| - 1])
  }

  /** It is told by the end of the job's chain, and the note is kept beside it. */
  ghost predicate ToldBy(seen: Attempts, carried: Links, key: string, given: Resolved, k: string, res: Resolved)
    requires k in seen
  {
    var e := EndOf(seen, carried, k);
    && (if seen[e].status.Done? then res.how.HowDone? else res.how.HowRunning?)
    && res.byKey == e && res.said == given.note
      && PathThrough(key, given.byKey, Trail(seen, carried, k), seen, res.path)
  }

  /**
   What becomes of what was said of an attempt: only a note that names another job, one that came to something, is
   replaced.
   */
  ghost predicate NoteFate(rules: Rules, carried: Links, seen: Attempts, key: string, given: Option<Resolved>,
        after: Option<Resolved>) {
    if given.None? || !given.value.how.HowNote? then after == given
    else
      && (forall k :: About(rules, seen, given.value, k) && k in seen ==>
            if k != key && Served(seen[EndOf(seen, carried, k)]) then
              after.Some? && ToldBy(seen, carried, key, given.value, k, after.value)
            else after == given)
      && ((forall k :: !About(rules, seen, given.value, k)) ==> after == given)
  }

  lemma PathInserted(key: string, via: string, trail: seq<string>, at: Attempts, given: Resolved, r: Resolved)
    requires given.path == [key] + Except(trail, key) && r == Through(at, given, via)
    ensures PathThrough(key, via, trail, at, r.path)
  {
    ExceptKeeps(trail, key);
    var rest := Except(trail, key);
    assert forall x :: x in given.path <==> x == key || x in rest;
    if via != "" && via in at && via !in given.path {
      assert given.path[1..] == rest && r.path == [key, via] + rest;
      assert forall x :: x in r.path <==> x == key || x == via || x in rest;
    }
  }

  lemma NoteTold(rules: Rules, seen: Attempts, carried: Links, given: Attempt, k: string, r: Attempt)
    requires OwnKeys(seen) && given.resolved.Some? && given.resolved.value.how.HowNote?
    requires NamedBy(rules, seen, given.resolved.value) == Some(k) && k in seen
        && r == NoteFollowed(rules, seen, carried, given)
    ensures if k != given.key && Served(seen[EndOf(seen, carried, k)]) then
              r.resolved.Some? && ToldBy(seen, carried, given.key, given.resolved.value, k, r.resolved.value)
            else r.resolved == given.resolved
  {
    var trail, res := Trail(seen, carried, k), given.resolved.value;
    var plain := Ending(seen, given.key, trail).(said := res.note);
    PathInserted(given.key, res.byKey, trail, seen, plain, Through(seen, plain, res.byKey));
  }

  lemma NoteVisited(rules: Rules, seen: Attempts, carried: Links, given: Attempt, r: Attempt)
    requires OwnKeys(seen) && r == NoteFollowed(rules, seen, carried, given)
    ensures NoteFate(rules, carried, seen, given.key, given.resolved, r.resolved)
  {
    if given.resolved.Some? && given.resolved.value.how.HowNote? {
      var res := given.resolved.value;
      forall k ensures About(rules, seen, res, k) <==> NamedBy(rules, seen, res) == Some(k) {
        AboutIff(rules, seen, res, k);
      }
      var k := NamedBy(rules, seen, res);
      if k.Some? {
        NoteTold(rules, seen, carried, given, k.value, r);
        assert About(rules, seen, res, k.value);
      }
    }
  }

  lemma NoteVisitSays(rules: Rules, runs: Runs, carried: Links, seen: Attempts, given: Attempt, r: Attempt)
    requires OwnKeys(seen) && r == Visit(rules, runs, carried, NoteNames)(seen, given)
    ensures NoteFate(rules, carried, seen, given.key, given.resolved, r.resolved)
  {
    NoteVisited(rules, seen, carried, given, r);
  }

  // ---------------------------------------------------------------- in the end

  /** The owner settled it with a note, and did not stop it. */
  predicate OwnersNote(a: Attempt) {
    a.resolvedNote != "" && ((BrokenJob(a) && !a.stopped) || a.status.BudgetStopped?)
  }

  lemma KeepsAll(given: Attempts, rules: Rules, runs: Runs, carried: Links, pass: Pass)
    ensures Preserves(Visit(rules, runs, carried, pass), m => Kept(given, m))
  {
    var visit := Visit(rules, runs, carried, pass);
    forall m: Attempts, k | k in m && Kept(given, m) ensures Kept(given, m[k := visit(m, m[k])]) {
      VisitKeeps(rules, runs, pass, carried, m, m[k]);
      WrittenKept(given, m, k, visit(m, m[k]));
    }
  }

  lemma NoteSeenAt(rules: Rules, runs: Runs, carried: Links, four: Attempts, five: Attempts, key: string)
    returns (seen: Attempts)
    requires Keyed(runs) && "" !in runs.at && Kept(runs.at, four) && key in runs.at
    requires five == Sweep(Visit(rules, runs, carried, NoteNames), four, runs.order)
    ensures Kept(runs.at, seen) && Between(four, seen, five) && key in four && key in five
    ensures NoteFate(rules, carried, seen, key, four[key].resolved, five[key].resolved)
  {
    KeepsAll(runs.at, rules, runs, carried, NoteNames);
    seen := Seen(rules, runs, carried, NoteNames, four, key, m => Kept(runs.at, m));
    KeptNamed(runs.at, seen);
    NoteVisitSays(rules, runs, carried, seen, four[key], five[key]);
  }

  lemma NoteFirst(rules: Rules, runs: Runs, carried: Links, one: Attempts, two: Attempts, key: string, note: Resolved)
    requires Keyed(runs) && key in runs.at && OwnersNote(runs.at[key]) && Kept(runs.at, one)
    requires note == Resolved(HowNote, "", runs.at[key].resolvedNote, [], "")
    requires one == Sweep(Visit(rules, runs, carried, Fails), runs.at, runs.order)
    requires two == Sweep(Visit(rules, runs, carried, StopNotes), one, runs.order)
    ensures key in two && two[key].resolved == Some(note)
  {
    var seen := PassAt(rules, runs, carried, Fails, runs.at, key);
    FirstNoted(rules, runs, carried, seen, runs.at[key], one[key]);
    assert SameButNotes(runs.at[key], one[key]);
    StopNotedAt(rules, runs, carried, one, key, two[key]);
  }

  lemma FirstNoted(rules: Rules, runs: Runs, carried: Links, seen: Attempts, given: Attempt, r: Attempt)
    requires r == Visit(rules, runs, carried, Fails)(seen, given)
    ensures BrokenJob(given) && !given.stopped && given.resolvedNote != ""
        ==> r.resolved == Some(Resolved(HowNote, "", given.resolvedNote, [], ""))
  {
  }

  lemma NoteLeft(rules: Rules, runs: Runs, carried: Links, pass: Pass, seen: Attempts, given: Attempt, r: Attempt,
        note: Resolved)
    requires (pass.StopEnds? || pass.Settles?) && r == Visit(rules, runs, carried, pass)(seen, given)
    requires note.byKey == "" && given.resolved == Some(note)
    ensures r.resolved == Some(note)
  {
  }

  lemma NoteStands(rules: Rules, runs: Runs, carried: Links, pass: Pass, at: Attempts, after: Attempts, key: string,
        note: Resolved)
    requires Keyed(runs) && key in at && at.Keys == runs.at.Keys && (pass.StopEnds? || pass.Settles?)
    requires note.byKey == "" && at[key].resolved == Some(note)
    requires after == Sweep(Visit(rules, runs, carried, pass), at, runs.order)
    ensures key in after && after[key].resolved == Some(note)
  {
    var seen := PassAt(rules, runs, carried, pass, at, key);
    NoteLeft(rules, runs, carried, pass, seen, at[key], after[key], note);
  }

  /**
   A note is followed to the job it names. As the pass finds the attempts when it comes to this one, its note, if that
   is
   what was said of it, is replaced exactly when it names another job whose chain ended done or at work; it then tells
   that end and keeps the note beside it. Where the owner wrote a note, that note is what the pass finds.
   */
  lemma NotesFollowed(rules: Rules, runs: Runs, carried: Links, key: string) returns (s: Stages, seen: Attempts)
    requires Keyed(runs) && "" !in runs.at && carried == CarriedMap(runs.at, runs.order) && key in runs.at
    ensures Staged(rules, runs, carried, s) && Kept(runs.at, seen) && Between(s.four, seen, s.five)
    ensures key in Annotated(rules, runs).at && key in s.four
    ensures NoteFate(rules, carried, seen, key, s.four[key].resolved, Annotated(rules, runs).at[key].resolved)
    ensures OwnersNote(runs.at[key])
        ==> s.four[key].resolved == Some(Resolved(HowNote, "", runs.at[key].resolvedNote, [], ""))
  {
    s := AllPasses(rules, runs, carried);
    seen := NoteSeenAt(rules, runs, carried, s.four, s.five, key);
    NumberedAt(rules, runs, carried, s.five, key, Annotated(rules, runs).at[key]);
    if OwnersNote(runs.at[key]) {
      var note := Resolved(HowNote, "", runs.at[key].resolvedNote, [], "");
      NoteFirst(rules, runs, carried, s.one, s.two, key, note);
      NoteStands(rules, runs, carried, StopEnds, s.two, s.three, key, note);
      NoteStands(rules, runs, carried, Settles, s.three, s.four, key, note);
    }
  }
}
