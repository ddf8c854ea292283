/**
 engine/chain.js `annotate`: why each attempt stopped, what became of it and which attempt of its chain it is. The
 passes run one after the other over the same attempts, each seeing what the earlier ones and itself already wrote.
 */
module Annotate {
  import opened Prelude
  import opened Chain

  // ---------------------------------------------------------------- the pieces of the passes

  /** The end of the explicit retry links, a few links at most. */
  function FollowNext(at: Attempts, next: string, hops: nat, end: Option<string>): (r: Option<string>)
    requires end.Some? ==> end.value in at
    ensures r.Some? ==> r.value in at
    ensures end.None? && hops > 0 ==> (r.None? <==> next == "" || next !in at)
    ensures end.Some? ==> r.Some?
    decreases hops
  {
    if next == "" || next !in at || hops == 0 then end else FollowNext(at, at[next].next, hops - 1, Some(next))
  }

  method RetriedAs(at: Attempts, first: string) returns (end: Option<string>)
    ensures end == FollowNext(at, first, 8, None)
  {
    var next, hops := first, 0;
    end := None;
    while next != "" && next in at && hops < 8
      invariant 0 <= hops <= 8 && (end.Some? ==> end.value in at)
      invariant FollowNext(at, next, 8 - hops, end) == FollowNext(at, first, 8, None)
    {
      hops := hops + 1;
      end := Some(next);
      next := at[next].next;
    }
  }

  /** Retries one after the other, from a link on. */
  ghost predicate Retries(at: Attempts, first: string, path: seq<string>) {
    && (forall i :: 0 <= i < |path| ==> path[i] != "" && path[i] in at)
    && (path != [] ==> path[0] == first)
    && (forall i :: 0 < i < |path| ==> path[i] == at[path[i - 1]].next)
  }

  /** The link behind the last of them. */
  ghost function LinkAfter(at: Attempts, first: string, path: seq<string>): string
    requires Retries(at, first, path)
  {
    if path == [] then first else at[path[|path| - 1]].next
  }

  /**
   The loop over the retry links ends in the last attempt of a path of retries; it stops after as many as it may follow,
   or because the link behind the last one leads nowhere.
   */
  lemma {:induction false} RetriesEnd(at: Attempts, first: string, hops: nat, end: Option<string>)
        returns (path: seq<string>)
    requires end.Some? ==> end.value in at
    ensures Retries(at, first, path) && |path| <= hops
    ensures FollowNext(at, first, hops, end) == if path == [] then end else Some(path[|path| - 1])
    ensures |path| < hops ==> LinkAfter(at, first, path) == "" || LinkAfter(at, first, path) !in at
    decreases hops
  {
    path := [];
    if first != "" && first in at && hops > 0 {
      var rest := RetriesEnd(at, at[first].next, hops - 1, Some(first));
      path := [first] + rest;
      assert forall i :: 0 < i < |path| ==> path[i] == rest[i - 1];
      assert rest != [] ==> path[|path| - 1] == rest[|rest| - 1];
    }
  }

  /** How many attempts the links back lead through, a few at most. */
  function Earlier(at: Attempts, prev: string, hops: nat): nat
    decreases hops
  {
    if prev == "" || prev !in at || hops == 0 then 0 else 1 + Earlier(at, at[prev].prev, hops - 1)
  }

  method AttemptNumber(at: Attempts, prev: string) returns (n: nat)
    ensures n == 1 + Earlier(at, prev, 8)
  {
    n := 1;
    var p, hops := prev, 0;
    while p != "" && p in at && hops < 8
      invariant 0 <= hops <= 8 && n + Earlier(at, p, 8 - hops) == 1 + Earlier(at, prev, 8)
    {
      hops := hops + 1;
      n := n + 1;
      p := at[p].prev;
    }
  }

  datatype Wanted = Working | Finished | Any

  predicate Fits(w: Wanted, s: Status) {
    match w
    case Working => Active(s)
    case Finished => s.Done?
    case Any => true
  }

  /** The latest attempt of a list that fits; of equally late ones, the first. */
  function Newest(at: Attempts, keys: seq<string>, w: Wanted): (r: Option<string>)
    requires forall k :: k in keys ==> k in at
    ensures r.Some? ==> r.value in keys && Fits(w, at[r.value].status)
    ensures r.None? ==> forall k :: k in keys ==> !Fits(w, at[k].status)
  {
    if keys == [] then None
    else
      var m, k := Newest(at, keys[..|keys| - 1], w), keys[|keys| - 1];
      if Fits(w, at[k].status) && (m.None? || at[k].updated > at[m.value].updated) then Some(k) else m
  }

  lemma {:induction false} NewestIsLatest(at: Attempts, keys: seq<string>, w: Wanted)
    requires forall k :: k in keys ==> k in at
    ensures Newest(at, keys, w).Some? ==> forall k ::
        k in keys && Fits(w, at[k].status) ==> at[k].updated <= at[Newest(at, keys, w).value].updated
  {
    if keys != [] { NewestIsLatest(at, keys[..|keys| - 1], w); }
  }

  const GRACE := 60000

  /** The related attempts that are not much older. */
  function Later(at: Attempts, keys: seq<string>, key: string, updated: int): (r: seq<string>)
    ensures forall k :: k in r <==> k in keys && k in at && k != key && at[k].updated >= updated - GRACE
  {
    if keys == [] then []
    else
      var k := keys[|keys| - 1];
      Later(at, keys[..|keys| - 1], key, updated)
        + if k in at && k != key && at[k].updated >= updated - GRACE then [k] else []
  }

  /**
   The attempt a broken one was followed by when no link says so: one at work, else one that finished, else the latest.
   */
  function Successor(at: Attempts, later: seq<string>): (r: Option<string>)
    requires forall k :: k in later ==> k in at
    ensures r.Some? ==> r.value in later
    ensures r.None? <==> later == []
  {
    var working, finished := Newest(at, later, Working), Newest(at, later, Finished);
    if working.Some? then working else if finished.Some? then finished else Newest(at, later, Any)
  }

  function Handled(how: How, note: string): Resolved { Resolved(how, "", note, [], "") }

  /** What an attempt's first successor makes of it. */
  function Followed(end: Attempt): Resolved {
    if end.status.Done? then Resolved(HowDone, end.key, "superseded by " + end.key, [], "")
    else if Active(end.status) then Resolved(HowRunning, end.key, "taken over by " + end.key, [], "")
    else Resolved(HowFailed, end.key, "failed again as " + end.key, [], "")
  }

  /** `ended`: what the end of a chain makes of the attempts before it. */
  function Ended(end: Attempt): Resolved {
    if end.status.Done? then Resolved(HowDone, end.key, "superseded by " + end.key, [], "")
    else if Active(end.status) then Resolved(HowRunning, end.key, "taken over by " + end.key, [], "")
    else if end.resolved.Some? && (end.resolved.value.how.HowNote? || end.resolved.value.how.HowStopped?) then
      Resolved(HowNote, end.key, "carried on as " + end.name + ": " + end.resolved.value.note, [], "")
    else if end.status.BudgetStopped? then
      Resolved(HowBudget, end.key, "carried on as " + end.name
          + ", which stopped at its step limit before it finished", [], "")
    else Resolved(HowFailed, end.key, "tried again as " + end.name + ", which failed too", [], "")
  }

  function Except(trail: seq<string>, key: string): seq<string> {
    if trail == [] then []
    else Except(trail[..|trail| - 1], key) + if trail[|trail| - 1] == key then [] else [trail[|trail| - 1]]
  }

  /** `ending`: what the end of a trail makes of an attempt, with the path to it. */
  function Ending(at: Attempts, key: string, trail: seq<string>): Resolved
    requires trail != [] && trail[|trail| - 1] in at
  {
    Ended(at[trail[|trail| - 1]]).(path := [key] + Except(trail, key))
  }

  /** The first job a note names that there is. */
  function Named(rules: Rules, at: Attempts, note: string): (r: Option<string>)
    ensures r.Some? ==> r.value in at
  {
    FirstIn(at, rules.mentions(note))
  }

  function FirstIn(at: Attempts, keys: seq<string>): (r: Option<string>)
    ensures r.Some? ==> r.value in at && r.value in keys
    ensures r.None? ==> forall k :: k in keys ==> k !in at
  {
    if keys == [] then None else if keys[0] in at then Some(keys[0]) else FirstIn(at, keys[1..])
  }

  function NoteOf(at: Attempts, key: string): string {
    if key in at && at[key].resolved.Some? then at[key].resolved.value.note else ""
  }

  /** The job a handled attempt's notes name. */
  function NamedBy(rules: Rules, at: Attempts, res: Resolved): (r: Option<string>)
    ensures r.Some? ==> r.value in at
  {
    if res.byKey != "" && Named(rules, at, NoteOf(at, res.byKey)).Some? then Named(rules, at, NoteOf(at, res.byKey))
    else Named(rules, at, res.note)
  }

  // ---------------------------------------------------------------- one attempt in one pass

  /** A job that broke: why, and what became of it first. */
  function First(rules: Rules, runs: Runs, at: Attempts, r: Attempt): Attempt {
    if r.runner !in RUNNERS || !Broken(r.status) then r
    else
      var why := if r.status.Failed? then rules.reason(r.error) else if r.status.Interrupted? then Crash else OnPurpose;
      if r.stopped then r.(reason := Some(why), resolved := Some(Handled(HowStopped, "stopped on purpose")))
      else if r.resolvedNote != "" then r.(reason := Some(why), resolved := Some(Handled(HowNote, r.resolvedNote)))
      else
        var end := FollowedBy(rules, runs, at, r);
        if end.Some? then r.(reason := Some(why), resolved := Some(Followed(at[end.value])))
            else r.(reason := Some(why))
  }

  /** The attempt a broken one was followed by: through its retry links, else the best of the related ones. */
  function FollowedBy(rules: Rules, runs: Runs, at: Attempts, r: Attempt): (k: Option<string>)
    ensures k.Some? ==> k.value in at
  {
    var end := FollowNext(at, r.next, 8, None);
    if end.Some? then end else Successor(at, Later(at, rules.related(runs, r.key), r.key, r.updated))
  }

  function StopNoted(r: Attempt): Attempt {
    if !r.status.BudgetStopped? then r
    else if r.resolvedNote != "" then r.(reason := Some(Budget), resolved := Some(Handled(HowNote, r.resolvedNote)))
    else r.(reason := Some(Budget))
  }

  function StopEnded(at: Attempts, carried: Links, r: Attempt): Attempt {
    if !r.status.BudgetStopped? || r.resolved.Some? || r.key !in at || EndOf(at, carried, r.key) == r.key then r
    else r.(resolved := Some(Ending(at, r.key, Trail(at, carried, r.key))))
  }

  function Settled(at: Attempts, carried: Links, r: Attempt): Attempt {
    if r.status.BudgetStopped? || r.resolved.None? || r.resolved.value.byKey == "" || r.resolved.value.byKey !in at
        then r
    else r.(resolved := Some(Ending(at, r.key, Trail(at, carried, r.resolved.value.byKey))))
  }

  /** The attempt whose note named the job stays in the path, right behind the attempt itself. */
  function Through(at: Attempts, res: Resolved, via: string): Resolved {
    if via != "" && via in at && via !in res.path && res.path != []
        then res.(path := [res.path[0], via] + res.path[1..]) else res
  }

  function NoteFollowed(rules: Rules, at: Attempts, carried: Links, r: Attempt): Attempt {
    if r.resolved.None? || !r.resolved.value.how.HowNote? then r
    else
      var res := r.resolved.value;
      var k := NamedBy(rules, at, res);
      if k.None? || k.value == r.key then r
      else
        var end := at[EndOf(at, carried, k.value)];
        if !end.status.Done? && !Active(end.status) then r
        else r.(resolved := Some(Through(at, Ending(at, r.key, Trail(at, carried, k.value)).(said := res.note),
            res.byKey)))
  }

  function Numbered(at: Attempts, r: Attempt): Attempt {
    if r.runner in RUNNERS && Earlier(at, r.prev, 8) > 0 then r.(attempt := 1 + Earlier(at, r.prev, 8)) else r
  }

  datatype Pass = Fails | StopNotes | StopEnds | Settles | NoteNames | Numbers

  /** What a pass makes of an attempt, given what the attempts say at that moment. */
  type Visitor = (Attempts, Attempt) -> Attempt

  function Visit(rules: Rules, runs: Runs, carried: Links, pass: Pass): Visitor {
    match pass
    case Fails => (at, r) => First(rules, runs, at, r)
    case StopNotes => (at, r) => StopNoted(r)
    case StopEnds => (at, r) => StopEnded(at, carried, r)
    case Settles => (at, r) => Settled(at, carried, r)
    case NoteNames => (at, r) => NoteFollowed(rules, at, carried, r)
    case Numbers => (at, r) => Numbered(at, r)
  }

  /** A pass over the first attempts of a list, each seeing what was written before it. */
  function Sweep(visit: Visitor, at: Attempts, keys: seq<string>): (r: Attempts)
    requires forall k :: k in keys ==> k in at
    ensures r.Keys == at.Keys
  {
    if keys == [] then at
    else
      var before, key := Sweep(visit, at, keys[..|keys| - 1]), keys[|keys| - 1];
      before[key := visit(before, before[key])]
  }

  lemma SweepStep(visit: Visitor, at: Attempts, keys: seq<string>, i: nat)
    requires i < |keys| && forall k :: k in keys ==> k in at
    ensures var before := Sweep(visit, at, keys[..i]);
        Sweep(visit, at, keys[..i + 1]) == before[keys[i] := visit(before, before[keys[i]])]
  {
    assert keys[..i + 1][..i] == keys[..i];
  }

  const PASSES := [Fails, StopNotes, StopEnds, Settles, NoteNames, Numbers]

  function Passed(rules: Rules, runs: Runs, n: nat): (r: Attempts)
    requires n <= |PASSES| && forall k :: k in runs.order ==> k in runs.at
    ensures r.Keys == runs.at.Keys
    decreases n, runs
  {
    if n == 0 then runs.at
    else Sweep(Visit(rules, runs, CarriedMap(runs.at, runs.order), PASSES[n - 1]), Passed(rules, runs, n - 1),
        runs.order)
  }

  /** `annotate` */
  function Annotated(rules: Rules, runs: Runs): Runs
    requires Keyed(runs)
  {
    runs.(at := Passed(rules, runs, |PASSES|))
  }

  // ---------------------------------------------------------------- the passes in place

  method FirstOf(rules: Rules, runs: Runs, at: Attempts, given: Attempt) returns (r: Attempt)
    ensures r == First(rules, runs, at, given)
  {
    r := given;
    if r.runner !in RUNNERS || !Broken(r.status) { return; }
    r := r.(reason := Some(if r.status.Failed? then rules.reason(r.error) else if r.status.Interrupted? then Crash
        else OnPurpose));
    if r.stopped {
      r := r.(resolved := Some(Handled(HowStopped, "stopped on purpose")));
    } else if r.resolvedNote != "" {
      r := r.(resolved := Some(Handled(HowNote, r.resolvedNote)));
    } else {
      var end := RetriedAs(at, r.next);
      if end.None? { end := Successor(at, Later(at, rules.related(runs, r.key), r.key, r.updated)); }
      if end.Some? { r := r.(resolved := Some(Followed(at[end.value]))); }
    }
  }

  method StopEndedOf(at: Attempts, carried: Links, given: Attempt) returns (r: Attempt)
    ensures r == StopEnded(at, carried, given)
  {
    r := given;
    if r.status.BudgetStopped? && r.resolved.None? && r.key in at {
      var end, trail := SettleChain(at, carried, r.key);
      if end != r.key { r := r.(resolved := Some(Ending(at, r.key, trail))); }
    }
  }

  method SettledOf(at: Attempts, carried: Links, given: Attempt) returns (r: Attempt)
    ensures r == Settled(at, carried, given)
  {
    r := given;
    if !r.status.BudgetStopped? && r.resolved.Some? && r.resolved.value.byKey != "" && r.resolved.value.byKey in at {
      var _, trail := SettleChain(at, carried, r.resolved.value.byKey);
      r := r.(resolved := Some(Ending(at, r.key, trail)));
    }
  }

  method NoteFollowedOf(rules: Rules, at: Attempts, carried: Links, given: Attempt) returns (r: Attempt)
    ensures r == NoteFollowed(rules, at, carried, given)
  {
    r := given;
    if r.resolved.None? || !r.resolved.value.how.HowNote? { return; }
    var res := r.resolved.value;
    var k := NamedBy(rules, at, res);
    if k.None? || k.value == r.key { return; }
    var end, trail := SettleChain(at, carried, k.value);
    if at[end].status.Done? || Active(at[end].status) {
      r := r.(resolved := Some(Through(at, Ending(at, r.key, trail).(said := res.note), res.byKey)));
    }
  }

  method VisitOne(rules: Rules, runs: Runs, pass: Pass, carried: Links, at: Attempts, given: Attempt)
    returns (r: Attempt)
    ensures r == Visit(rules, runs, carried, pass)(at, given)
  {
    r := given;
    match pass {
      case Fails => r := FirstOf(rules, runs, at, r);
      case StopNotes =>
        if r.status.BudgetStopped? {
          r := r.(reason := Some(Budget));
          if r.resolvedNote != "" { r := r.(resolved := Some(Handled(HowNote, r.resolvedNote))); }
        }
      case StopEnds => r := StopEndedOf(at, carried, r);
      case Settles => r := SettledOf(at, carried, r);
      case NoteNames => r := NoteFollowedOf(rules, at, carried, r);
      case Numbers =>
        if r.runner in RUNNERS {
          var n := AttemptNumber(at, r.prev);
          if n > 1 { r := r.(attempt := n); }
        }
    }
  }

  method SweepAll(rules: Rules, runs: Runs, pass: Pass, carried: Links, before: Attempts) returns (at: Attempts)
    requires Keyed(runs) && Kept(runs.at, before)
    ensures at == Sweep(Visit(rules, runs, carried, pass), before, runs.order)
  {
    at := before;
    ghost var visit := Visit(rules, runs, carried, pass);
    for i := 0 to |runs.order|
      invariant at == Sweep(visit, before, runs.order[..i]) && Kept(runs.at, at)
    {
      SweepStep(visit, before, runs.order, i);
      at := WriteOne(rules, runs, pass, carried, at, runs.order[i]);
    }
    assert runs.order[..|runs.order|] == runs.order;
  }

  method WriteOne(rules: Rules, runs: Runs, pass: Pass, carried: Links, before: Attempts, key: string)
        returns (at: Attempts)
    requires Kept(runs.at, before) && key in before
    ensures at == before[key := Visit(rules, runs, carried, pass)(before, before[key])] && Kept(runs.at, at)
  {
    var r := VisitOne(rules, runs, pass, carried, before, before[key]);
    WrittenKept(runs.at, before, key, r);
    VisitKeeps(rules, runs, pass, carried, before, before[key]);
    at := before[key := r];
  }

  lemma WrittenKept(given: Attempts, at: Attempts, key: string, r: Attempt)
    requires Kept(given, at) && key in at
    ensures SameButNotes(at[key], r) ==> Kept(given, at[key := r])
  {
  }

  method OnePass(rules: Rules, runs: Runs, n: nat, carried: Links, before: Attempts) returns (at: Attempts)
    requires Keyed(runs) && n < |PASSES| && carried == CarriedMap(runs.at, runs.order)
    requires before == Passed(rules, runs, n)
    ensures at == Passed(rules, runs, n + 1) && at.Keys == runs.at.Keys
  {
    PassedKeeps(rules, runs, n);
    at := SweepAll(rules, runs, PASSES[n], carried, before);
  }

  /** All passes in turn, over attempts that change between and within them. */
  method AnnotateAll(rules: Rules, runs: Runs) returns (r: Runs)
    requires Keyed(runs)
    ensures r == Annotated(rules, runs)
  {
    var carried := CarriedBy(runs.at, runs.order);
    var at := runs.at;
    for n := 0 to |PASSES|
      invariant at.Keys == runs.at.Keys && at == Passed(rules, runs, n)
    {
      at := OnePass(rules, runs, n, carried, at);
    }
    r := runs.(at := at);
  }

  // ---------------------------------------------------------------- what annotating keeps

  /** Only the reason, what became of it and the number of an attempt are written. */
  predicate SameButNotes(a: Attempt, b: Attempt) {
    b == a.(reason := b.reason, resolved := b.resolved, attempt := b.attempt)
  }

  ghost predicate Kept(a: Attempts, b: Attempts) {
    a.Keys == b.Keys && forall k :: k in a ==> SameButNotes(a[k], b[k])
  }

  ghost predicate Keeping(visit: Visitor) { forall at, r :: SameButNotes(r, visit(at, r)) }

  lemma VisitKeeps(rules: Rules, runs: Runs, pass: Pass, carried: Links, at: Attempts, r: Attempt)
    ensures SameButNotes(r, Visit(rules, runs, carried, pass)(at, r))
  {
    match pass
    case Fails => FirstKeeps(rules, runs, at, r);
    case NoteNames => NoteFollowedKeeps(rules, at, carried, r);
    case _ =>
  }

  lemma FirstKeeps(rules: Rules, runs: Runs, at: Attempts, r: Attempt)
    ensures SameButNotes(r, First(rules, runs, at, r))
  {
  }

  lemma NoteFollowedKeeps(rules: Rules, at: Attempts, carried: Links, r: Attempt)
    ensures SameButNotes(r, NoteFollowed(rules, at, carried, r))
  {
  }

  lemma AllKeep(rules: Rules, runs: Runs, pass: Pass, carried: Links)
    ensures Keeping(Visit(rules, runs, carried, pass))
  {
    forall at, r ensures SameButNotes(r, Visit(rules, runs, carried, pass)(at, r)) {
      VisitKeeps(rules, runs, pass, carried, at, r);
    }
  }

  lemma {:induction false} SweepKeeps(visit: Visitor, at: Attempts, keys: seq<string>)
    requires (forall k :: k in keys ==> k in at) && Keeping(visit)
    ensures Kept(at, Sweep(visit, at, keys))
  {
    if keys != [] { SweepKeeps(visit, at, keys[..|keys| - 1]); }
  }

  lemma {:induction false} PassedKeeps(rules: Rules, runs: Runs, n: nat)
    requires n <= |PASSES| && forall k :: k in runs.order ==> k in runs.at
    ensures Kept(runs.at, Passed(rules, runs, n))
  {
    if n > 0 {
      PassedKeeps(rules, runs, n - 1);
      AllKeep(rules, runs, PASSES[n - 1], CarriedMap(runs.at, runs.order));
      SweepKeeps(Visit(rules, runs, CarriedMap(runs.at, runs.order), PASSES[n - 1]), Passed(rules, runs, n - 1),
          runs.order);
    }
  }

  /** Everything an attempt says of itself is left as it was, and no attempt appears or goes. */
  lemma AnnotatedKeeps(rules: Rules, runs: Runs)
    requires Keyed(runs)
    ensures Keyed(Annotated(rules, runs)) && Annotated(rules, runs).order == runs.order
    ensures Kept(runs.at, Annotated(rules, runs).at)
  {
    PassedKeeps(rules, runs, |PASSES|);
  }

  // ---------------------------------------------------------------- who ended it

  /** "done" and "running" are only said of an attempt that names one that has that status. */
  predicate Honest(at: Attempts, res: Option<Resolved>) {
    res.Some? ==>
      && (res.value.how.HowDone? ==> res.value.byKey in at && at[res.value.byKey].status.Done?)
      && (res.value.how.HowRunning? ==> res.value.byKey in at && Active(at[res.value.byKey].status))
  }

  ghost predicate AllHonest(at: Attempts) {
    forall k :: k in at ==> at[k].key == k && Honest(at, at[k].resolved)
  }

  lemma EndedHonest(at: Attempts, key: string, trail: seq<string>)
    requires AllHonest(at) && trail != [] && trail[|trail| - 1] in at
    ensures Honest(at, Some(Ending(at, key, trail)))
  {
  }

  lemma FirstHonest(rules: Rules, runs: Runs, at: Attempts, r: Attempt)
    requires AllHonest(at) && Honest(at, r.resolved)
    ensures Honest(at, First(rules, runs, at, r).resolved)
  {
    var end := FollowedBy(rules, runs, at, r);
    if end.Some? { assert Honest(at, Some(Followed(at[end.value]))); }
  }

  lemma NoteHonest(rules: Rules, at: Attempts, carried: Links, r: Attempt)
    requires AllHonest(at) && Honest(at, r.resolved)
    ensures Honest(at, NoteFollowed(rules, at, carried, r).resolved)
  {
    if r.resolved.Some? && NamedBy(rules, at, r.resolved.value).Some? {
      EndedHonest(at, r.key, Trail(at, carried, NamedBy(rules, at, r.resolved.value).value));
    }
  }

  lemma VisitHonest(rules: Rules, runs: Runs, pass: Pass, carried: Links, at: Attempts, r: Attempt)
    requires AllHonest(at) && Honest(at, r.resolved)
    ensures Honest(at, Visit(rules, runs, carried, pass)(at, r).resolved)
  {
    match pass
    case Fails => FirstHonest(rules, runs, at, r);
    case StopNotes =>
    case StopEnds => if r.key in at { EndedHonest(at, r.key, Trail(at, carried, r.key)); }
    case Settles =>
      if r.resolved.Some? && r.resolved.value.byKey in at {
        EndedHonest(at, r.key, Trail(at, carried, r.resolved.value.byKey));
      }
    case NoteNames => NoteHonest(rules, at, carried, r);
    case Numbers =>
  }

  lemma WrittenHonest(at: Attempts, key: string, r: Attempt)
    requires key in at && AllHonest(at) && SameButNotes(at[key], r) && Honest(at, r.resolved)
    ensures AllHonest(at[key := r])
  {
    assert forall k :: k in at ==> at[key := r][k].status == at[k].status;
  }

  lemma {:induction false} SweepHonest(rules: Rules, runs: Runs, pass: Pass, carried: Links, at: Attempts,
        keys: seq<string>)
    requires (forall k :: k in keys ==> k in at) && AllHonest(at)
    ensures AllHonest(Sweep(Visit(rules, runs, carried, pass), at, keys))
  {
    if keys != [] {
      var visit, key := Visit(rules, runs, carried, pass), keys[|keys| - 1];
      var before := Sweep(visit, at, keys[..|keys| - 1]);
      SweepHonest(rules, runs, pass, carried, at, keys[..|keys| - 1]);
      VisitHonest(rules, runs, pass, carried, before, before[key]);
      VisitKeeps(rules, runs, pass, carried, before, before[key]);
      WrittenHonest(before, key, visit(before, before[key]));
    }
  }

  lemma {:induction false} PassedHonest(rules: Rules, runs: Runs, n: nat)
    requires n <= |PASSES| && (forall k :: k in runs.order ==> k in runs.at) && AllHonest(runs.at)
    ensures AllHonest(Passed(rules, runs, n))
  {
    if n > 0 {
      PassedHonest(rules, runs, n - 1);
      SweepHonest(rules, runs, PASSES[n - 1], CarriedMap(runs.at, runs.order), Passed(rules, runs, n - 1), runs.order);
    }
  }

  /** Nothing is said yet of what became of any attempt; a reason or a number may be given. */
  ghost predicate Plain(runs: Runs) { forall k :: k in runs.at ==> runs.at[k].resolved.None? }

  /** Whenever an attempt is said to be done or taken over, the attempt named has finished, or is at work. */
  lemma SaidDoneIsDone(rules: Rules, runs: Runs)
    requires Keyed(runs) && Plain(runs)
    ensures var at := Annotated(rules, runs).at; forall k :: k in at ==> Honest(at, at[k].resolved)
  {
    PassedHonest(rules, runs, |PASSES|);
  }

  // ---------------------------------------------------------------- what the owner settled

  predicate OwnersWord(how: How) { how.HowNote? || how.HowStopped? }

  /** `ownerSettled` */
  predicate OwnerSettled(a: Attempt) { a.resolvedNote != "" || (a.resolved.Some? && OwnersWord(a.resolved.value.how)) }

  /** The owner neither settled nor stopped the attempt. */
  predicate LeftAlone(a: Attempt) { !a.stopped && !OwnerSettled(a) }

  ghost predicate AllLeft(at: Attempts) { forall k :: k in at ==> LeftAlone(at[k]) }

  lemma EndingLeft(at: Attempts, key: string, trail: seq<string>)
    requires AllLeft(at) && trail != [] && trail[|trail| - 1] in at
    ensures !OwnersWord(Ending(at, key, trail).how)
  {
  }

  lemma VisitLeft(rules: Rules, runs: Runs, pass: Pass, carried: Links, at: Attempts, r: Attempt)
    requires AllLeft(at) && LeftAlone(r)
    ensures LeftAlone(Visit(rules, runs, carried, pass)(at, r))
  {
    match pass
    case StopEnds => if r.key in at { EndingLeft(at, r.key, Trail(at, carried, r.key)); }
    case Settles =>
      if r.resolved.Some? && r.resolved.value.byKey in at {
        EndingLeft(at, r.key, Trail(at, carried, r.resolved.value.byKey));
      }
    case _ =>
  }

  lemma {:induction false} SweepLeft(rules: Rules, runs: Runs, pass: Pass, carried: Links, at: Attempts,
        keys: seq<string>)
    requires (forall k :: k in keys ==> k in at) && AllLeft(at)
    ensures AllLeft(Sweep(Visit(rules, runs, carried, pass), at, keys))
  {
    if keys != [] {
      var before := Sweep(Visit(rules, runs, carried, pass), at, keys[..|keys| - 1]);
      SweepLeft(rules, runs, pass, carried, at, keys[..|keys| - 1]);
      VisitLeft(rules, runs, pass, carried, before, before[keys[|keys| - 1]]);
    }
  }

  lemma PassLeft(rules: Rules, runs: Runs, n: nat, before: Attempts, at: Attempts)
    requires 0 < n <= |PASSES| && forall k :: k in runs.order ==> k in runs.at
    requires before == Passed(rules, runs, n - 1) && at == Passed(rules, runs, n)
    ensures AllLeft(before) ==> AllLeft(at)
  {
    PassedOnce(rules, runs, CarriedMap(runs.at, runs.order), n, PASSES[n - 1], before, at);
    if AllLeft(before) { SweepLeft(rules, runs, PASSES[n - 1], CarriedMap(runs.at, runs.order), before, runs.order); }
  }

  lemma {:induction false} PassedLeft(rules: Rules, runs: Runs, n: nat)
    requires n <= |PASSES| && (forall k :: k in runs.order ==> k in runs.at) && AllLeft(runs.at)
    ensures AllLeft(Passed(rules, runs, n))
  {
    if n > 0 {
      PassedLeft(rules, runs, n - 1);
      PassLeft(rules, runs, n, Passed(rules, runs, n - 1), Passed(rules, runs, n));
    }
  }

  /** Annotating never puts words in the owner's mouth: attempts the owner left alone are not called settled. */
  lemma OwnersWordOnly(rules: Rules, runs: Runs)
    requires Keyed(runs) && AllLeft(runs.at)
    ensures AllLeft(Annotated(rules, runs).at)
  {
    PassedLeft(rules, runs, |PASSES|);
  }

  // ---------------------------------------------------------------- the path a reader sees

  lemma {:induction false} ExceptKeeps(trail: seq<string>, key: string)
    ensures forall k :: k in Except(trail, key) <==> k in trail && k != key
    ensures |Except(trail, key)| <= |trail|
    ensures trail != [] && trail[|trail| - 1] != key
        ==> Except(trail, key) != [] && Except(trail, key)[|Except(trail, key)| - 1] == trail[|trail| - 1]
  {
    if trail != [] {
      ExceptKeeps(trail[..|trail| - 1], key);
      assert trail == trail[..|trail| - 1] + [trail[|trail| - 1]];
    }
  }

  ghost predicate Repeats(path: seq<string>) { exists i, j :: 0 <= i < j < |path| && path[i] == path[j] }

  lemma {:induction false} ExceptApart(trail: seq<string>, key: string)
    requires !Repeats(trail)
    ensures !Repeats(Except(trail, key))
  {
    if trail != [] {
      var n := |trail| - 1;
      assert forall i :: 0 <= i < n ==> trail[..n][i] == trail[i];
      ExceptApart(trail[..n], key);
      ExceptKeeps(trail[..n], key);
      assert trail[n] !in trail[..n];
      var front := Except(trail[..n], key);
      assert forall i :: 0 <= i < |front| ==> front[i] in front;
    }
  }

  /**
   The path of a settled attempt: it begins with the attempt itself, visits none twice, goes through exactly the trail,
   and ends in the attempt that is said to have ended it, unless that is the attempt itself.
   */
  lemma EndingPath(at: Attempts, carried: Links, key: string, start: string, r: Resolved)
    requires start in at && (forall k :: k in at ==> at[k].key == k) && r == Ending(at, key, Trail(at, carried, start))
    ensures r.byKey == EndOf(at, carried, start)
    ensures r.path != [] && r.path[0] == key && !Repeats(r.path) && |r.path| <= HOPS + 2
    ensures forall k :: k in r.path <==> k == key || k in Trail(at, carried, start)
    ensures r.byKey != key ==> r.path[|r.path| - 1] == r.byKey
  {
    var trail := Trail(at, carried, start);
    TrailIsPath(at, carried, start);
    assert !Repeats(trail);
    ExceptKeeps(trail, key);
    ExceptApart(trail, key);
    PathOf(key, Except(trail, key), r.path);
  }

  lemma PathOf(key: string, rest: seq<string>, path: seq<string>)
    requires path == [key] + rest && key !in rest && !Repeats(rest)
    ensures !Repeats(path) && forall k :: k in path <==> k == key || k in rest
  {
    assert forall j :: 0 < j < |path| ==> path[j] == rest[j - 1] && rest[j - 1] in rest;
  }

  // ---------------------------------------------------------------- what is said of each attempt

  /** Each key is there once, and names an attempt. */
  ghost predicate KeysOnce(keys: seq<string>, at: Attempts) {
    (forall k :: k in keys ==> k in at) && forall i, j :: 0 <= i < j < |keys| ==> keys[i] != keys[j]
  }

  lemma FrontOnce(keys: seq<string>, at: Attempts, key: string)
    requires KeysOnce(keys, at) && key in keys
    ensures KeysOnce(keys[..|keys| - 1], at) && (key == keys[|keys| - 1] <==> key !in keys[..|keys| - 1])
  {
    var n := |keys| - 1;
    assert keys == keys[..n] + [keys[n]];
    assert forall i :: 0 <= i < n ==> keys[..n][i] == keys[i];
  }

  /** An attempt is written once in a pass, at a moment when the others still say the same of themselves. */
  lemma {:induction false} SweepAt(visit: Visitor, at: Attempts, keys: seq<string>, key: string)
    returns (seen: Attempts)
    requires KeysOnce(keys, at) && key in keys && Keeping(visit)
    ensures Kept(at, seen) && seen[key] == at[key] && Sweep(visit, at, keys)[key] == visit(seen, at[key])
  {
    var n := |keys| - 1;
    FrontOnce(keys, at, key);
    if keys[n] == key {
      seen := Sweep(visit, at, keys[..n]);
      SweepKeeps(visit, at, keys[..n]);
      NotSwept(visit, at, keys[..n], key);
    } else {
      seen := SweepAt(visit, at, keys[..n], key);
    }
  }

  lemma {:induction false} NotSwept(visit: Visitor, at: Attempts, keys: seq<string>, key: string)
    requires (forall k :: k in keys ==> k in at) && key !in keys && key in at
    ensures Sweep(visit, at, keys)[key] == at[key]
  {
    if keys != [] { NotSwept(visit, at, keys[..|keys| - 1], key); }
  }

  lemma {:induction false} EarlierKept(a: Attempts, b: Attempts, prev: string, hops: nat)
    requires Kept(a, b)
    ensures Earlier(a, prev, hops) == Earlier(b, prev, hops)
    decreases hops
  {
    if prev != "" && prev in a && hops > 0 { EarlierKept(a, b, a[prev].prev, hops - 1); }
  }

  /** Nothing follows an attempt: no retry that is there, and no related attempt that is not much older. */
  predicate Unfollowed(rules: Rules, runs: Runs, at: Attempts, r: Attempt) {
    && (r.next == "" || r.next !in at)
    && Later(at, rules.related(runs, r.key), r.key, r.updated) == []
  }

  lemma {:induction false} LaterKept(a: Attempts, b: Attempts, keys: seq<string>, key: string, updated: int)
    requires Kept(a, b)
    ensures Later(a, keys, key, updated) == Later(b, keys, key, updated)
  {
    if keys != [] { LaterKept(a, b, keys[..|keys| - 1], key, updated); }
  }

  lemma UnfollowedKept(rules: Rules, runs: Runs, a: Attempts, b: Attempts, key: string)
    requires Kept(a, b) && key in a && a[key].key == key
    ensures FollowedBy(rules, runs, b, a[key]).None? <==> Unfollowed(rules, runs, a, a[key])
  {
    LaterKept(a, b, rules.related(runs, key), key, a[key].updated);
  }

  predicate BrokenJob(r: Attempt) { r.runner in RUNNERS && Broken(r.status) }

  /** Why a job broke; the reason that was given, when it did not. */
  function WhyFailed(rules: Rules, r: Attempt): Option<Reason> {
    if !BrokenJob(r) then r.reason
    else Some(if r.status.Failed? then rules.reason(r.error) else if r.status.Interrupted? then Crash else OnPurpose)
  }

  function WhyStopped(rules: Rules, r: Attempt): Option<Reason> {
    if r.status.BudgetStopped? then Some(Budget) else WhyFailed(rules, r)
  }

  /** Nothing is said of what became of an attempt: it did not stop, or nothing is known to have followed it. */
  predicate Open(rules: Rules, runs: Runs, r: Attempt)
    requires r.key in runs.at && forall k :: k in runs.order ==> k in runs.at
  {
    (BrokenJob(r) ==> OpenJob(rules, runs, r)) && (r.status.BudgetStopped? ==> OpenStop(runs, r))
  }

  predicate OpenJob(rules: Rules, runs: Runs, r: Attempt) {
    !r.stopped && r.resolvedNote == "" && Unfollowed(rules, runs, runs.at, r)
  }

  predicate OpenStop(runs: Runs, r: Attempt)
    requires r.key in runs.at && forall k :: k in runs.order ==> k in runs.at
  {
    r.resolvedNote == "" && Preferred(runs.at, CarriedMap(runs.at, runs.order), r.key, r.key).None?
  }

  /** An attempt after a pass, by the attempts as the pass finds them when it comes to this one. */
  lemma PassAt(rules: Rules, runs: Runs, carried: Links, pass: Pass, at: Attempts, key: string) returns (seen: Attempts)
    requires Keyed(runs) && key in at && at.Keys == runs.at.Keys
    ensures Kept(at, seen) && seen[key] == at[key]
    ensures Sweep(Visit(rules, runs, carried, pass), at, runs.order)[key]
        == Visit(rules, runs, carried, pass)(seen, at[key])
  {
    AllKeep(rules, runs, pass, carried);
    seen := SweepAt(Visit(rules, runs, carried, pass), at, runs.order, key);
  }

  lemma FirstSays(rules: Rules, runs: Runs, key: string, seen: Attempts, r: Attempt)
    requires Keyed(runs) && Plain(runs) && key in runs.at && Kept(runs.at, seen) && seen[key] == runs.at[key]
    requires r == First(rules, runs, seen, seen[key])
    ensures r.reason == WhyFailed(rules, runs.at[key]) && r.attempt == runs.at[key].attempt
    ensures r.resolved.None? <==> !BrokenJob(runs.at[key]) || OpenJob(rules, runs, runs.at[key])
  {
    if BrokenJob(seen[key]) {
      UnfollowedKept(rules, runs, runs.at, seen, key);
      FirstResolves(rules, runs, seen, seen[key], r);
    }
  }

  lemma FirstResolves(rules: Rules, runs: Runs, seen: Attempts, given: Attempt, r: Attempt)
    requires BrokenJob(given) && given.resolved.None? && r == First(rules, runs, seen, given)
    ensures r.reason == WhyFailed(rules, given)
    ensures r.resolved.None?
        <==> !given.stopped && given.resolvedNote == "" && FollowedBy(rules, runs, seen, given).None?
  {
  }

  lemma FirstAt(rules: Rules, runs: Runs, carried: Links, key: string, r: Attempt)
    requires Keyed(runs) && Plain(runs) && key in runs.at
    requires r == Sweep(Visit(rules, runs, carried, Fails), runs.at, runs.order)[key]
    ensures r.reason == WhyFailed(rules, runs.at[key]) && r.attempt == runs.at[key].attempt
    ensures r.resolved.None? <==> !BrokenJob(runs.at[key]) || OpenJob(rules, runs, runs.at[key])
  {
    var seen := PassAt(rules, runs, carried, Fails, runs.at, key);
    FirstSays(rules, runs, key, seen, r);
  }

  lemma StopNotedSays(rules: Rules, runs: Runs, carried: Links, seen: Attempts, given: Attempt, r: Attempt)
    requires r == Visit(rules, runs, carried, StopNotes)(seen, given)
    ensures r == StopNoted(given)
  {
  }

  lemma StopNotedAt(rules: Rules, runs: Runs, carried: Links, at: Attempts, key: string, r: Attempt)
    requires Keyed(runs) && key in at && at.Keys == runs.at.Keys
    requires r == Sweep(Visit(rules, runs, carried, StopNotes), at, runs.order)[key]
    ensures r == StopNoted(at[key])
  {
    var seen := PassAt(rules, runs, carried, StopNotes, at, key);
    StopNotedSays(rules, runs, carried, seen, at[key], r);
  }

  lemma StopEndedSays(rules: Rules, runs: Runs, carried: Links, key: string, seen: Attempts, given: Attempt, r: Attempt)
    requires Keyed(runs) && Plain(runs) && key in runs.at && Kept(runs.at, seen) && given == seen[key]
    requires r == Visit(rules, runs, carried, StopEnds)(seen, given)
    ensures r.reason == given.reason && r.attempt == given.attempt
    ensures r.resolved.None?
        <==> given.resolved.None? && (given.status.BudgetStopped? ==> Preferred(runs.at, carried, key, key).None?)
  {
    if given.status.BudgetStopped? && given.resolved.None? { EndElsewhere(runs.at, seen, carried, key); }
  }

  lemma {:induction false} KeptTwice(a: Attempts, b: Attempts, c: Attempts)
    requires Kept(a, b) && Kept(b, c)
    ensures Kept(a, c)
  {
    forall k | k in a ensures SameButNotes(a[k], c[k]) {
      assert SameButNotes(a[k], b[k]) && SameButNotes(b[k], c[k]);
    }
  }

  lemma StopEndedAt(rules: Rules, runs: Runs, carried: Links, at: Attempts, key: string, r: Attempt)
    requires Keyed(runs) && Plain(runs) && key in at && Kept(runs.at, at)
    requires r == Sweep(Visit(rules, runs, carried, StopEnds), at, runs.order)[key]
    ensures r.reason == at[key].reason && r.attempt == at[key].attempt
    ensures r.resolved.None?
        <==> at[key].resolved.None? && (at[key].status.BudgetStopped? ==> Preferred(runs.at, carried, key, key).None?)
  {
    var seen := PassAt(rules, runs, carried, StopEnds, at, key);
    KeptTwice(runs.at, at, seen);
    StopEndedSays(rules, runs, carried, key, seen, at[key], r);
  }

  predicate SaidAlike(a: Attempt, b: Attempt) {
    b.reason == a.reason && b.attempt == a.attempt && (b.resolved.None? <==> a.resolved.None?)
  }

  lemma SettledAt(rules: Rules, runs: Runs, carried: Links, at: Attempts, key: string, r: Attempt)
    requires Keyed(runs) && key in at && at.Keys == runs.at.Keys
    requires r == Sweep(Visit(rules, runs, carried, Settles), at, runs.order)[key]
    ensures SaidAlike(at[key], r)
  {
    var seen := PassAt(rules, runs, carried, Settles, at, key);
    SettledSays(rules, runs, carried, seen, at[key], r);
  }

  lemma SettledSays(rules: Rules, runs: Runs, carried: Links, seen: Attempts, given: Attempt, r: Attempt)
    requires r == Visit(rules, runs, carried, Settles)(seen, given)
    ensures SaidAlike(given, r)
  {
  }

  lemma NoteFollowedAt(rules: Rules, runs: Runs, carried: Links, at: Attempts, key: string, r: Attempt)
    requires Keyed(runs) && key in at && at.Keys == runs.at.Keys
    requires r == Sweep(Visit(rules, runs, carried, NoteNames), at, runs.order)[key]
    ensures SaidAlike(at[key], r)
  {
    var seen := PassAt(rules, runs, carried, NoteNames, at, key);
    NoteFollowedSays(rules, runs, carried, seen, at[key], r);
  }

  lemma NoteFollowedSays(rules: Rules, runs: Runs, carried: Links, seen: Attempts, given: Attempt, r: Attempt)
    requires r == Visit(rules, runs, carried, NoteNames)(seen, given)
    ensures SaidAlike(given, r)
  {
  }

  lemma NumberedSays(rules: Rules, runs: Runs, carried: Links, seen: Attempts, given: Attempt, r: Attempt)
    requires Kept(runs.at, seen) && r == Visit(rules, runs, carried, Numbers)(seen, given)
    ensures r.reason == given.reason && r.resolved == given.resolved && r.attempt == NumberOf(runs, given)
  {
    EarlierKept(runs.at, seen, given.prev, 8);
  }

  lemma SameNumber(runs: Runs, a: Attempt, b: Attempt)
    requires SameButNotes(a, b) && a.attempt == b.attempt
    ensures NumberOf(runs, a) == NumberOf(runs, b)
  {
  }

  lemma NumberedAt(rules: Rules, runs: Runs, carried: Links, at: Attempts, key: string, r: Attempt)
    requires Keyed(runs) && key in at && Kept(runs.at, at)
    requires r == Sweep(Visit(rules, runs, carried, Numbers), at, runs.order)[key]
    ensures r.reason == at[key].reason && r.resolved == at[key].resolved && r.attempt == NumberOf(runs, at[key])
  {
    var seen := PassAt(rules, runs, carried, Numbers, at, key);
    KeptTwice(runs.at, at, seen);
    NumberedSays(rules, runs, carried, seen, at[key], r);
  }

  lemma EndElsewhere(a: Attempts, b: Attempts, carried: Links, key: string)
    requires Kept(a, b) && key in a && a[key].resolved.None? && b[key].resolved.None?
    ensures EndOf(b, carried, key) == key <==> Preferred(a, carried, key, key).None?
  {
    var s := Preferred(b, carried, key, key);
    assert s == Preferred(a, carried, key, key);
    TrailIsPath(b, carried, key);
    if s.Some? { assert [key] + [s.value] <= Walk(b, carried, key, [key] + [s.value], HOPS - 1); }
  }

  /** The first three passes over one attempt say why it stopped and whether anything became of it. */
  lemma StoppedAt(rules: Rules, runs: Runs, carried: Links, one: Attempts, two: Attempts, key: string, r: Attempt)
    requires Keyed(runs) && Plain(runs) && key in runs.at && carried == CarriedMap(runs.at, runs.order)
    requires Kept(runs.at, one) && Kept(runs.at, two)
    requires one == Sweep(Visit(rules, runs, carried, Fails), runs.at, runs.order)
    requires two == Sweep(Visit(rules, runs, carried, StopNotes), one, runs.order)
    requires r == Sweep(Visit(rules, runs, carried, StopEnds), two, runs.order)[key]
    ensures r.reason == WhyStopped(rules, runs.at[key]) && r.attempt == runs.at[key].attempt
    ensures r.resolved.None? <==> Open(rules, runs, runs.at[key])
  {
    FirstAt(rules, runs, carried, key, one[key]);
    StopNotedAt(rules, runs, carried, one, key, two[key]);
    StopEndedAt(rules, runs, carried, two, key, r);
    StoppedTwice(rules, runs.at[key], one[key], two[key], r, !OpenJob(rules, runs, runs.at[key]),
        Preferred(runs.at, carried, key, key).Some?);
  }

  lemma StoppedTwice(rules: Rules, a: Attempt, one: Attempt, two: Attempt, r: Attempt, followed: bool, carriedOn: bool)
    requires a.resolved.None? && SameButNotes(a, one) && one.reason == WhyFailed(rules, a) && one.attempt == a.attempt
    requires one.resolved.None? <==> !BrokenJob(a) || !followed
    requires two == StopNoted(one) && r.reason == two.reason && r.attempt == two.attempt
    requires r.resolved.None? <==> two.resolved.None? && !(two.status.BudgetStopped? && carriedOn)
    ensures r.reason == WhyStopped(rules, a) && r.attempt == a.attempt
    ensures r.resolved.None?
        <==> !(BrokenJob(a) && followed) && !(a.status.BudgetStopped? && (a.resolvedNote != "" || carriedOn))
  {
    if !a.status.BudgetStopped? { assert two == one; }
  }

  /** The last three passes over one attempt number it and leave the rest as it was said. */
  lemma NumberedAfter(rules: Rules, runs: Runs, carried: Links, three: Attempts, four: Attempts,
                      five: Attempts, key: string, r: Attempt)
    requires Keyed(runs) && key in runs.at && Kept(runs.at, three) && Kept(runs.at, four) && Kept(runs.at, five)
    requires three[key].attempt == runs.at[key].attempt
    requires four == Sweep(Visit(rules, runs, carried, Settles), three, runs.order)
    requires five == Sweep(Visit(rules, runs, carried, NoteNames), four, runs.order)
    requires r == Sweep(Visit(rules, runs, carried, Numbers), five, runs.order)[key]
    ensures r.reason == three[key].reason && (r.resolved.None? <==> three[key].resolved.None?)
    ensures r.attempt == NumberOf(runs, runs.at[key])
  {
    SettledAt(rules, runs, carried, three, key, four[key]);
    NoteFollowedAt(rules, runs, carried, four, key, five[key]);
    NumberedAt(rules, runs, carried, five, key, r);
    SameNumber(runs, runs.at[key], five[key]);
  }

  /** The number of an attempt of a portal runner, when it is not the first; else the one it was given. */
  function NumberOf(runs: Runs, r: Attempt): nat {
    if r.runner in RUNNERS && Earlier(runs.at, r.prev, 8) > 0 then 1 + Earlier(runs.at, r.prev, 8) else r.attempt
  }

  /** The attempts after each of the passes but the last. */
  datatype Stages = Stages(one: Attempts, two: Attempts, three: Attempts, four: Attempts, five: Attempts)

  ghost predicate Staged(rules: Rules, runs: Runs, carried: Links, s: Stages)
    requires Keyed(runs)
  {
    && Kept(runs.at, s.one) && Kept(runs.at, s.two) && Kept(runs.at, s.three) && Kept(runs.at, s.four)
    && Kept(runs.at, s.five)
    && (AllLeft(runs.at) ==> AllLeft(s.four) && AllLeft(s.five))
    && s.one == Sweep(Visit(rules, runs, carried, Fails), runs.at, runs.order)
    && s.two == Sweep(Visit(rules, runs, carried, StopNotes), s.one, runs.order)
    && s.three == Sweep(Visit(rules, runs, carried, StopEnds), s.two, runs.order)
    && s.four == Sweep(Visit(rules, runs, carried, Settles), s.three, runs.order)
    && s.five == Sweep(Visit(rules, runs, carried, NoteNames), s.four, runs.order)
    && Annotated(rules, runs).at == Sweep(Visit(rules, runs, carried, Numbers), s.five, runs.order)
  }

  lemma AllPasses(rules: Rules, runs: Runs, carried: Links) returns (s: Stages)
    requires Keyed(runs) && carried == CarriedMap(runs.at, runs.order)
    ensures Staged(rules, runs, carried, s)
  {
    var one, two := FirstPasses(rules, runs, carried);
    var three := ThirdPass(rules, runs, carried, two);
    var four := FourthPass(rules, runs, carried, three);
    var five := FifthPass(rules, runs, carried, four);
    LastPass(rules, runs, carried, five);
    s := Stages(one, two, three, four, five);
  }

  lemma FirstPasses(rules: Rules, runs: Runs, carried: Links) returns (one: Attempts, two: Attempts)
    requires Keyed(runs) && carried == CarriedMap(runs.at, runs.order)
    ensures two == Passed(rules, runs, 2) && Kept(runs.at, one) && Kept(runs.at, two)
    ensures one == Sweep(Visit(rules, runs, carried, Fails), runs.at, runs.order)
    ensures two == Sweep(Visit(rules, runs, carried, StopNotes), one, runs.order)
  {
    one := PassMade(rules, runs, carried, 1, Fails, runs.at);
    two := PassMade(rules, runs, carried, 2, StopNotes, one);
  }

  lemma ThirdPass(rules: Rules, runs: Runs, carried: Links, two: Attempts) returns (three: Attempts)
    requires Keyed(runs) && carried == CarriedMap(runs.at, runs.order) && two == Passed(rules, runs, 2)
    ensures three == Passed(rules, runs, 3) && Kept(runs.at, three)
    ensures three == Sweep(Visit(rules, runs, carried, StopEnds), two, runs.order)
  {
    three := PassMade(rules, runs, carried, 3, StopEnds, two);
  }

  lemma FourthPass(rules: Rules, runs: Runs, carried: Links, three: Attempts) returns (four: Attempts)
    requires Keyed(runs) && carried == CarriedMap(runs.at, runs.order) && three == Passed(rules, runs, 3)
    ensures four == Passed(rules, runs, 4) && Kept(runs.at, four) && (AllLeft(runs.at) ==> AllLeft(four))
    ensures four == Sweep(Visit(rules, runs, carried, Settles), three, runs.order)
  {
    four := PassMade(rules, runs, carried, 4, Settles, three);
  }

  lemma FifthPass(rules: Rules, runs: Runs, carried: Links, four: Attempts) returns (five: Attempts)
    requires Keyed(runs) && carried == CarriedMap(runs.at, runs.order) && four == Passed(rules, runs, 4)
    ensures five == Passed(rules, runs, 5) && Kept(runs.at, five) && (AllLeft(runs.at) ==> AllLeft(five))
    ensures five == Sweep(Visit(rules, runs, carried, NoteNames), four, runs.order)
  {
    five := PassMade(rules, runs, carried, 5, NoteNames, four);
  }

  lemma LastPass(rules: Rules, runs: Runs, carried: Links, five: Attempts)
    requires Keyed(runs) && carried == CarriedMap(runs.at, runs.order) && five == Passed(rules, runs, 5)
    ensures five.Keys == runs.at.Keys
        && Annotated(rules, runs).at == Sweep(Visit(rules, runs, carried, Numbers), five, runs.order)
  {
    var six := PassMade(rules, runs, carried, 6, Numbers, five);
  }

  lemma PassedOnce(rules: Rules, runs: Runs, carried: Links, n: nat, pass: Pass, before: Attempts, at: Attempts)
    requires 0 < n <= |PASSES| && pass == PASSES[n - 1] && forall k :: k in runs.order ==> k in runs.at
    requires carried == CarriedMap(runs.at, runs.order) && before == Passed(rules, runs, n - 1)
        && at == Passed(rules, runs, n)
    ensures before.Keys == runs.at.Keys && at == Sweep(Visit(rules, runs, carried, pass), before, runs.order)
  {
  }

  lemma PassMade(rules: Rules, runs: Runs, carried: Links, n: nat, pass: Pass, before: Attempts) returns (at: Attempts)
    requires Keyed(runs) && 0 < n <= |PASSES| && pass == PASSES[n - 1] && carried == CarriedMap(runs.at, runs.order)
    requires before == Passed(rules, runs, n - 1)
    ensures at == Passed(rules, runs, n) && Kept(runs.at, at) && (AllLeft(runs.at) ==> AllLeft(at))
    ensures before.Keys == runs.at.Keys && at == Sweep(Visit(rules, runs, carried, pass), before, runs.order)
  {
    at := Passed(rules, runs, n);
    PassedOnce(rules, runs, carried, n, pass, before, at);
    PassedKeeps(rules, runs, n);
    if AllLeft(runs.at) { PassedLeft(rules, runs, n); }
  }

  /**
   What `annotate` says of attempts of which nothing was said to have become: why each stopped, which attempt of its
   chain it is, and whether anything is now said to have become of it.
   */
  lemma SaidOf(rules: Rules, runs: Runs, key: string, r: Attempt)
    requires Keyed(runs) && Plain(runs) && key in runs.at && r == Annotated(rules, runs).at[key]
    ensures r.reason == WhyStopped(rules, runs.at[key])
    ensures r.resolved.None? <==> Open(rules, runs, runs.at[key])
    ensures r.attempt == NumberOf(runs, runs.at[key])
  {
    var carried := CarriedMap(runs.at, runs.order);
    var s := AllPasses(rules, runs, carried);
    StoppedAt(rules, runs, carried, s.one, s.two, key, s.three[key]);
    NumberedAfter(rules, runs, carried, s.three, s.four, s.five, key, r);
  }

  // ---------------------------------------------------------------- an attempt that is its own end

  /** From the attempt that is said to have followed this one, the chain comes back to it. */
  ghost predicate ComesBack(at: Attempts, carried: Links, key: string) {
    forall seen: Attempts, p ::
        Kept(at, seen) && key in seen && SaysFollowed(seen[key], p) && p in seen ==> EndOf(seen, carried, p) == key
  }

  predicate SaysFollowed(r: Attempt, p: string) { r.resolved.Some? && r.resolved.value.byKey == p }

  predicate FollowedIn(at: Attempts, r: Attempt) { r.resolved.Some? ==> r.resolved.value.byKey in at }

  predicate OwnEnd(r: Attempt, key: string) { r.resolved.Some? ==> r.resolved.value.byKey in ["", key] }

  lemma FirstNames(rules: Rules, runs: Runs, carried: Links, key: string, r: Attempt)
    requires Keyed(runs) && Plain(runs) && AllLeft(runs.at) && key in runs.at
    requires r == Sweep(Visit(rules, runs, carried, Fails), runs.at, runs.order)[key]
    ensures FollowedIn(runs.at, r)
  {
    var seen := PassAt(rules, runs, carried, Fails, runs.at, key);
    FirstNamesSeen(rules, runs, carried, key, seen, r);
  }

  lemma FirstNamesSeen(rules: Rules, runs: Runs, carried: Links, key: string, seen: Attempts, r: Attempt)
    requires Keyed(runs) && Plain(runs) && AllLeft(runs.at) && key in runs.at && Kept(runs.at, seen)
        && seen[key] == runs.at[key]
    requires r == Visit(rules, runs, carried, Fails)(seen, seen[key])
    ensures FollowedIn(runs.at, r)
  {
    var end := FollowedBy(rules, runs, seen, seen[key]);
    if end.Some? { assert SameButNotes(runs.at[end.value], seen[end.value]); }
  }

  lemma StopsPass(rules: Rules, runs: Runs, carried: Links, pass: Pass, at: Attempts, key: string, r: Attempt)
    requires Keyed(runs) && key in at && at.Keys == runs.at.Keys && !at[key].status.BudgetStopped?
        && (pass.StopNotes? || pass.StopEnds?)
    requires r == Sweep(Visit(rules, runs, carried, pass), at, runs.order)[key]
    ensures r == at[key]
  {
    var seen := PassAt(rules, runs, carried, pass, at, key);
    StopsPassSeen(rules, runs, carried, pass, seen, at[key], r);
  }

  lemma StopsPassSeen(rules: Rules, runs: Runs, carried: Links, pass: Pass, seen: Attempts, given: Attempt, r: Attempt)
    requires !given.status.BudgetStopped? && (pass.StopNotes? || pass.StopEnds?)
    requires r == Visit(rules, runs, carried, pass)(seen, given)
    ensures r == given
  {
  }

  lemma SettlesBack(rules: Rules, runs: Runs, carried: Links, at: Attempts, key: string, r: Attempt)
    requires Keyed(runs) && key in at && Kept(runs.at, at) && ComesBack(runs.at, carried, key)
    requires !at[key].status.BudgetStopped? && FollowedIn(at, at[key])
    requires r == Sweep(Visit(rules, runs, carried, Settles), at, runs.order)[key]
    ensures OwnEnd(r, key)
  {
    var seen := PassAt(rules, runs, carried, Settles, at, key);
    KeptTwice(runs.at, at, seen);
    SettlesBackSeen(rules, runs, carried, key, seen, at[key], r);
  }

  lemma SettlesBackSeen(rules: Rules, runs: Runs, carried: Links, key: string, seen: Attempts, given: Attempt,
        r: Attempt)
    requires Keyed(runs) && Kept(runs.at, seen) && key in seen && seen[key] == given && ComesBack(runs.at, carried, key)
    requires !given.status.BudgetStopped? && FollowedIn(seen, given)
    requires r == Visit(rules, runs, carried, Settles)(seen, given)
    ensures OwnEnd(r, key)
  {
    if given.resolved.Some? && given.resolved.value.byKey != "" {
      var p := given.resolved.value.byKey;
      assert SaysFollowed(seen[key], p) && EndOf(seen, carried, p) == key;
      SettlesTo(rules, runs, carried, p, key, seen, given, r);
    }
  }

  lemma SettlesTo(rules: Rules, runs: Runs, carried: Links, p: string, key: string, seen: Attempts, given: Attempt,
        r: Attempt)
    requires SaysFollowed(given, p) && p != "" && p in seen && !given.status.BudgetStopped?
    requires EndOf(seen, carried, p) == key && seen[key].key == key
    requires r == Visit(rules, runs, carried, Settles)(seen, given)
    ensures r.resolved.Some? && r.resolved.value.byKey == key
  {
  }

  lemma NotesPass(rules: Rules, runs: Runs, carried: Links, pass: Pass, at: Attempts, key: string, r: Attempt)
    requires Keyed(runs) && key in at && at.Keys == runs.at.Keys && LeftAlone(at[key])
        && (pass.NoteNames? || pass.Numbers?)
    requires r == Sweep(Visit(rules, runs, carried, pass), at, runs.order)[key]
    ensures r.resolved == at[key].resolved
  {
    var seen := PassAt(rules, runs, carried, pass, at, key);
    NotesPassSeen(rules, runs, carried, pass, seen, at[key], r);
  }

  lemma NotesPassSeen(rules: Rules, runs: Runs, carried: Links, pass: Pass, seen: Attempts, given: Attempt, r: Attempt)
    requires LeftAlone(given) && (pass.NoteNames? || pass.Numbers?)
    requires r == Visit(rules, runs, carried, pass)(seen, given)
    ensures r.resolved == given.resolved
  {
  }

  /** The first four passes over an attempt to which the chain comes back. */
  lemma BackAfterFour(rules: Rules, runs: Runs, carried: Links, one: Attempts, two: Attempts, three: Attempts,
        key: string, r: Attempt)
    requires Keyed(runs) && Plain(runs) && AllLeft(runs.at) && key in runs.at && !runs.at[key].status.BudgetStopped?
    requires ComesBack(runs.at, carried, key) && Kept(runs.at, one) && Kept(runs.at, two) && Kept(runs.at, three)
    requires one == Sweep(Visit(rules, runs, carried, Fails), runs.at, runs.order)
    requires two == Sweep(Visit(rules, runs, carried, StopNotes), one, runs.order)
    requires three == Sweep(Visit(rules, runs, carried, StopEnds), two, runs.order)
    requires r == Sweep(Visit(rules, runs, carried, Settles), three, runs.order)[key]
    ensures OwnEnd(r, key)
  {
    assert SameButNotes(runs.at[key], one[key]);
    FirstNames(rules, runs, carried, key, one[key]);
    StopsPass(rules, runs, carried, StopNotes, one, key, two[key]);
    StopsPass(rules, runs, carried, StopEnds, two, key, three[key]);
    SettlesBack(rules, runs, carried, three, key, r);
  }

  /** The last two passes say nothing new of what became of an attempt the owner left alone. */
  lemma BackAfterSix(rules: Rules, runs: Runs, carried: Links, four: Attempts, five: Attempts, key: string, r: Attempt)
    requires Keyed(runs) && key in runs.at && Kept(runs.at, four) && Kept(runs.at, five) && LeftAlone(four[key])
        && LeftAlone(five[key])
    requires five == Sweep(Visit(rules, runs, carried, NoteNames), four, runs.order)
    requires r == Sweep(Visit(rules, runs, carried, Numbers), five, runs.order)[key]
    ensures r.resolved == four[key].resolved
  {
    NotesPass(rules, runs, carried, NoteNames, four, key, five[key]);
    NotesPass(rules, runs, carried, Numbers, five, key, r);
  }

  /** An attempt the owner left alone and to which the chain comes back is not said to have been ended by another. */
  lemma BackIsOwnEnd(rules: Rules, runs: Runs, key: string, r: Attempt)
    requires Keyed(runs) && Plain(runs) && AllLeft(runs.at) && key in runs.at && !runs.at[key].status.BudgetStopped?
    requires ComesBack(runs.at, CarriedMap(runs.at, runs.order), key) && r == Annotated(rules, runs).at[key]
    ensures OwnEnd(r, key)
  {
    var carried := CarriedMap(runs.at, runs.order);
    var s := AllPasses(rules, runs, carried);
    BackAfterFour(rules, runs, carried, s.one, s.two, s.three, key, s.four[key]);
    BackAfterSix(rules, runs, carried, s.four, s.five, key, r);
  }
}
