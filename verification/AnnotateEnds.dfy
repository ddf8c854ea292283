/**
 What `annotate` (engine/chain.js) says became of an attempt, told by the status of the attempt it names and by the
 owner's word: both ways, so that a finished end is called done, and nothing else is.
 */
module AnnotateEnds {
  import opened Prelude
  import opened Chain
  import opened Annotate

  /** The owner stopped the attempt or settled it with a note, in a state in which that counts. */
  predicate OwnerWorded(a: Attempt) {
    if BrokenJob(a) then a.stopped || a.resolvedNote != "" else a.status.BudgetStopped? && a.resolvedNote != ""
  }

  /**
   What is said of an attempt by the status of the end that is named; of an end that is neither done nor at work, the
   owner's word first.
   */
  predicate Right(end: Attempt, how: How) {
    && (how.HowDone? <==> end.status.Done?)
    && (how.HowRunning? <==> Active(end.status))
    && (how.HowBudget? ==> end.status.BudgetStopped?)
    && (how.HowFailed? ==> !end.status.BudgetStopped?)
    && !how.HowStopped?
    && (OwnerWorded(end) && !end.status.Done? && !Active(end.status) ==> how.HowNote?)
  }

  /** It is said of the attempt that another, or itself, ended it. */
  predicate NamesEnd(a: Attempt) { a.resolved.Some? && a.resolved.value.byKey != "" }

  /** A note is said for an end of which the owner said something, or of which something else is said in turn. */
  predicate NoteRight(given: Attempts, at: Attempts, res: Resolved) {
    res.how.HowNote? && res.byKey in given && res.byKey in at ==>
      OwnerWorded(given[res.byKey]) || NamesEnd(at[res.byKey])
  }

  predicate RightIn(given: Attempts, res: Option<Resolved>) {
    res.Some? && res.value.byKey in given ==> Right(given[res.value.byKey], res.value.how)
  }

  /** The owner's word stands where it was given, and only there is an attempt resolved without an end. */
  ghost predicate Words(given: Attempts, at: Attempts) {
    forall k :: k in given && k in at ==> Worded(given[k], at[k])
  }

  predicate Worded(a: Attempt, b: Attempt) {
    (OwnerWorded(a) <==> b.resolved.Some? && b.resolved.value.byKey == "")
    && (b.resolved.Some? && b.resolved.value.byKey == "" ==> OwnersWord(b.resolved.value.how))
  }

  ghost predicate Standing(given: Attempts, at: Attempts) {
    Kept(given, at) && Words(given, at) && "" !in given && forall k :: k in given ==> given[k].key == k
  }

  // ---------------------------------------------------------------- a pass and what it keeps

  ghost predicate Preserves(visit: Visitor, inv: Attempts -> bool) {
    forall m, k :: k in m && inv(m) ==> inv(m[k := visit(m, m[k])])
  }

  /**
   An attempt is written once in a pass, at a moment when the others are as they were before it or as they are after it.
   */
  ghost predicate Between(at: Attempts, seen: Attempts, after: Attempts) {
    forall k :: k in at ==> k in seen && k in after && (seen[k] == at[k] || seen[k] == after[k])
  }

  lemma {:induction false} SweepWith(visit: Visitor, at: Attempts, keys: seq<string>, inv: Attempts -> bool)
    requires (forall k :: k in keys ==> k in at) && inv(at) && Preserves(visit, inv)
    ensures inv(Sweep(visit, at, keys))
  {
    if keys != [] { SweepWith(visit, at, keys[..|keys| - 1], inv); }
  }

  lemma {:induction false} SweepSeen(visit: Visitor, at: Attempts, keys: seq<string>, key: string,
        inv: Attempts -> bool)
    returns (seen: Attempts)
    requires KeysOnce(keys, at) && key in keys && inv(at) && Preserves(visit, inv)
    ensures inv(seen) && key in seen && seen[key] == at[key]
    ensures Sweep(visit, at, keys)[key] == visit(seen, at[key])
    ensures Between(at, seen, Sweep(visit, at, keys))
  {
    var n := |keys| - 1;
    FrontOnce(keys, at, key);
    var front := Sweep(visit, at, keys[..n]);
    SweepWith(visit, at, keys[..n], inv);
    if keys[n] == key {
      seen := front;
      NotSwept(visit, at, keys[..n], key);
    } else {
      seen := SweepSeen(visit, at, keys[..n], key, inv);
      FrontOnce(keys, at, keys[n]);
      NotSwept(visit, at, keys[..n], keys[n]);
      BetweenMore(at, seen, front, keys[n], visit(front, front[keys[n]]));
    }
  }

  lemma BetweenMore(at: Attempts, seen: Attempts, front: Attempts, last: string, r: Attempt)
    requires Between(at, seen, front) && last in front && last in at && front[last] == at[last]
    ensures Between(at, seen, front[last := r])
  {
  }

  /** How an attempt looks when a pass comes to it. */
  lemma Seen(rules: Rules, runs: Runs, carried: Links, pass: Pass, at: Attempts, key: string, inv: Attempts -> bool)
    returns (seen: Attempts)
    requires Keyed(runs) && key in at && at.Keys == runs.at.Keys
    requires inv(at) && Preserves(Visit(rules, runs, carried, pass), inv)
    ensures inv(seen) && key in seen && seen[key] == at[key]
    ensures Sweep(Visit(rules, runs, carried, pass), at, runs.order)[key]
         == Visit(rules, runs, carried, pass)(seen, at[key])
    ensures Between(at, seen, Sweep(Visit(rules, runs, carried, pass), at, runs.order))
  {
    seen := SweepSeen(Visit(rules, runs, carried, pass), at, runs.order, key, inv);
  }

  // ---------------------------------------------------------------- the owner's word

  /** The end of a trail, told by its status and the owner's word. */
  lemma EndingRight(given: Attempts, at: Attempts, key: string, trail: seq<string>, res: Resolved)
    requires Standing(given, at) && trail != [] && trail[|trail| - 1] in at && res == Ending(at, key, trail)
    ensures res.byKey == trail[|trail| - 1] && res.byKey != "" && Right(given[res.byKey], res.how)
        && NoteRight(given, at, res)
  {
    var e := trail[|trail| - 1];
    assert SameButNotes(given[e], at[e]) && Worded(given[e], at[e]);
  }

  lemma VisitWorded(given: Attempts, at: Attempts, rules: Rules, runs: Runs, carried: Links, pass: Pass, k: string)
    requires Standing(given, at) && k in at && (pass.StopEnds? || pass.Settles?)
    ensures Worded(given[k], Visit(rules, runs, carried, pass)(at, at[k]))
  {
    assert SameButNotes(given[k], at[k]) && Worded(given[k], at[k]);
    if pass.StopEnds? {
      EndingRight(given, at, k, Trail(at, carried, k), Ending(at, k, Trail(at, carried, k)));
    } else if at[k].resolved.Some? && at[k].resolved.value.byKey in at {
      var t := Trail(at, carried, at[k].resolved.value.byKey);
      EndingRight(given, at, k, t, Ending(at, k, t));
    }
  }

  lemma KeepsStanding(given: Attempts, rules: Rules, runs: Runs, carried: Links, pass: Pass)
    requires pass.StopEnds? || pass.Settles?
    ensures Preserves(Visit(rules, runs, carried, pass), m => Standing(given, m))
  {
    var visit := Visit(rules, runs, carried, pass);
    forall m: Attempts, k | k in m && Standing(given, m) ensures Standing(given, m[k := visit(m, m[k])]) {
      VisitWorded(given, m, rules, runs, carried, pass, k);
      VisitKeeps(rules, runs, pass, carried, m, m[k]);
      StandingMore(given, m, k, visit(m, m[k]));
    }
  }

  lemma StandingMore(given: Attempts, m: Attempts, k: string, r: Attempt)
    requires Standing(given, m) && k in m && SameButNotes(m[k], r) && Worded(given[k], r)
    ensures Standing(given, m[k := r])
  {
    assert SameButNotes(given[k], m[k]);
  }

  /** After the first two passes the owner's word stands. */
  lemma WordGiven(rules: Rules, runs: Runs, carried: Links, one: Attempts, two: Attempts, key: string)
    requires Keyed(runs) && Plain(runs) && "" !in runs.at && key in runs.at
    requires Kept(runs.at, one) && Kept(runs.at, two)
    requires one == Sweep(Visit(rules, runs, carried, Fails), runs.at, runs.order)
    requires two == Sweep(Visit(rules, runs, carried, StopNotes), one, runs.order)
    ensures Worded(runs.at[key], two[key]) && (runs.at[key].status.BudgetStopped? ==> !NamesEnd(two[key]))
  {
    var seen := PassAt(rules, runs, carried, Fails, runs.at, key);
    FirstWord(rules, runs, carried, seen, key, one[key]);
    StopNotedAt(rules, runs, carried, one, key, two[key]);
    StopWord(runs.at[key], one[key], two[key]);
  }

  lemma FirstWord(rules: Rules, runs: Runs, carried: Links, seen: Attempts, key: string, r: Attempt)
    requires Keyed(runs) && Plain(runs) && "" !in runs.at && key in runs.at && Kept(runs.at, seen)
        && seen[key] == runs.at[key]
    requires r == Visit(rules, runs, carried, Fails)(seen, runs.at[key])
    ensures SameButNotes(runs.at[key], r)
    ensures if BrokenJob(runs.at[key]) then Worded(runs.at[key], r) else r.resolved.None?
  {
    VisitKeeps(rules, runs, Fails, carried, seen, runs.at[key]);
    if BrokenJob(runs.at[key]) && FollowedBy(rules, runs, seen, runs.at[key]).Some? {
      var e := FollowedBy(rules, runs, seen, runs.at[key]).value;
      assert SameButNotes(runs.at[e], seen[e]);
    }
  }

  lemma StopWord(given: Attempt, one: Attempt, two: Attempt)
    requires SameButNotes(given, one) && two == StopNoted(one)
    requires if BrokenJob(given) then Worded(given, one) else one.resolved.None?
    ensures Worded(given, two) && (given.status.BudgetStopped? ==> !NamesEnd(two))
  {
  }

  lemma AllStanding(rules: Rules, runs: Runs, carried: Links, one: Attempts, two: Attempts)
    requires Keyed(runs) && Plain(runs) && "" !in runs.at && Kept(runs.at, one) && Kept(runs.at, two)
    requires one == Sweep(Visit(rules, runs, carried, Fails), runs.at, runs.order)
    requires two == Sweep(Visit(rules, runs, carried, StopNotes), one, runs.order)
    ensures Standing(runs.at, two)
  {
    forall k | k in runs.at && k in two ensures Worded(runs.at[k], two[k]) {
      WordGiven(rules, runs, carried, one, two, k);
    }
  }

  // ---------------------------------------------------------------- a name stays

  /** Where the attempts' keys are their own, and none is "". */
  ghost predicate OwnKeys(at: Attempts) { "" !in at && forall k :: k in at ==> at[k].key == k }

  lemma KeptNamed(given: Attempts, at: Attempts)
    requires OwnKeys(given) && Kept(given, at)
    ensures OwnKeys(at)
  {
    forall k | k in at ensures at[k].key == k { assert SameButNotes(given[k], at[k]); }
  }

  /** From the third pass on, an attempt that names an end goes on naming one. */
  lemma NameStays(rules: Rules, runs: Runs, carried: Links, pass: Pass, at: Attempts, k: string, after: Attempts)
    requires Keyed(runs) && "" !in runs.at && Kept(runs.at, at) && k in at && !pass.Fails? && !pass.StopNotes?
    requires after == Sweep(Visit(rules, runs, carried, pass), at, runs.order)
    ensures k in after && (NamesEnd(at[k]) ==> NamesEnd(after[k]))
  {
    var seen := PassAt(rules, runs, carried, pass, at, k);
    KeptTwice(runs.at, at, seen);
    KeptNamed(runs.at, seen);
    NameKept(rules, runs, carried, pass, seen, at[k], after[k]);
  }

  lemma NameKept(rules: Rules, runs: Runs, carried: Links, pass: Pass, seen: Attempts, given: Attempt, r: Attempt)
    requires OwnKeys(seen) && !pass.Fails? && !pass.StopNotes? && r == Visit(rules, runs, carried, pass)(seen, given)
    ensures NamesEnd(given) ==> NamesEnd(r)
  {
    if pass.NoteNames? { NoteNameKept(rules, seen, carried, given, r); }
  }

  lemma NoteNameKept(rules: Rules, seen: Attempts, carried: Links, given: Attempt, r: Attempt)
    requires OwnKeys(seen) && r == NoteFollowed(rules, seen, carried, given)
    ensures NamesEnd(given) ==> NamesEnd(r)
  {
  }

  /** What a note says of its end stays right while later passes go on. */
  lemma NoteStays(given: Attempts, at: Attempts, seen: Attempts, after: Attempts, res: Resolved)
    requires NoteRight(given, seen, res) && Between(at, seen, after) && at.Keys == given.Keys
    requires res.byKey in at ==> res.byKey in after && (NamesEnd(at[res.byKey]) ==> NamesEnd(after[res.byKey]))
    ensures NoteRight(given, after, res)
  {
  }

  lemma NoteLater(given: Attempts, at: Attempts, after: Attempts, res: Resolved)
    requires NoteRight(given, at, res) && at.Keys == given.Keys
    requires res.byKey in at ==> res.byKey in after && (NamesEnd(at[res.byKey]) ==> NamesEnd(after[res.byKey]))
    ensures NoteRight(given, after, res)
  {
  }

  // ---------------------------------------------------------------- one attempt through the passes

  /** What is said of an attempt is right, as its end is said to be at this moment. */
  predicate Said(given: Attempts, at: Attempts, r: Attempt) {
    r.resolved.Some? ==> RightIn(given, r.resolved) && NoteRight(given, at, r.resolved.value)
  }

  lemma SeenStanding(rules: Rules, runs: Runs, carried: Links, pass: Pass, at: Attempts, key: string, after: Attempts)
    returns (seen: Attempts)
    requires Keyed(runs) && key in runs.at && Standing(runs.at, at) && (pass.StopEnds? || pass.Settles?)
    requires after == Sweep(Visit(rules, runs, carried, pass), at, runs.order)
    ensures Standing(runs.at, seen) && Between(at, seen, after) && key in seen && seen[key] == at[key]
    ensures key in after && after[key] == Visit(rules, runs, carried, pass)(seen, at[key])
  {
    KeepsStanding(runs.at, rules, runs, carried, pass);
    seen := Seen(rules, runs, carried, pass, at, key, m => Standing(runs.at, m));
  }

  lemma PassStanding(rules: Rules, runs: Runs, carried: Links, pass: Pass, at: Attempts, after: Attempts)
    requires Keyed(runs) && Standing(runs.at, at) && (pass.StopEnds? || pass.Settles?)
    requires after == Sweep(Visit(rules, runs, carried, pass), at, runs.order)
    ensures Standing(runs.at, after)
  {
    KeepsStanding(runs.at, rules, runs, carried, pass);
    SweepWith(Visit(rules, runs, carried, pass), at, runs.order, m => Standing(runs.at, m));
  }

  /** The third pass settles the step-limit stops, the fourth the others. */
  lemma PassSaid(rules: Rules, runs: Runs, carried: Links, pass: Pass, at: Attempts, key: string, after: Attempts)
    requires Keyed(runs) && key in runs.at && Standing(runs.at, at) && (pass.StopEnds? || pass.Settles?)
    requires after == Sweep(Visit(rules, runs, carried, pass), at, runs.order)
    requires runs.at[key].status.BudgetStopped? ==> if pass.Settles? then Said(runs.at, at, at[key])
        else !NamesEnd(at[key])
    ensures key in after && (pass.Settles? || runs.at[key].status.BudgetStopped? ==> Said(runs.at, after, after[key]))
  {
    var seen := SeenStanding(rules, runs, carried, pass, at, key, after);
    SaidSeen(rules, runs, carried, pass, at, seen, key, after[key]);
    if after[key].resolved.Some? && (pass.Settles? || runs.at[key].status.BudgetStopped?) {
      SaidAfter(rules, runs, carried, pass, at, seen, after, after[key].resolved.value);
    }
  }

  lemma SaidAfter(rules: Rules, runs: Runs, carried: Links, pass: Pass, at: Attempts, seen: Attempts, after: Attempts,
        res: Resolved)
    requires Keyed(runs) && Standing(runs.at, at) && (pass.StopEnds? || pass.Settles?) && Between(at, seen, after)
    requires after == Sweep(Visit(rules, runs, carried, pass), at, runs.order)
    ensures NoteRight(runs.at, at, res) || NoteRight(runs.at, seen, res) ==> NoteRight(runs.at, after, res)
  {
    if res.byKey in at { NameStays(rules, runs, carried, pass, at, res.byKey, after); }
    if NoteRight(runs.at, at, res) { NoteLater(runs.at, at, after, res); }
    if NoteRight(runs.at, seen, res) { NoteStays(runs.at, at, seen, after, res); }
  }

  lemma SaidSeen(rules: Rules, runs: Runs, carried: Links, pass: Pass, at: Attempts, seen: Attempts, key: string,
        r: Attempt)
    requires key in runs.at && Standing(runs.at, seen) && key in seen && key in at && seen[key] == at[key]
    requires (pass.StopEnds? || pass.Settles?) && r == Visit(rules, runs, carried, pass)(seen, at[key])
    requires runs.at[key].status.BudgetStopped? ==> if pass.Settles? then Said(runs.at, at, at[key])
        else !NamesEnd(at[key])
    ensures (pass.Settles? || runs.at[key].status.BudgetStopped?) && r.resolved.Some?
        ==> RightIn(runs.at, r.resolved)
            && (NoteRight(runs.at, at, r.resolved.value) || NoteRight(runs.at, seen, r.resolved.value))
  {
    assert SameButNotes(runs.at[key], seen[key]) && Worded(runs.at[key], seen[key]);
    if pass.StopEnds? {
      EndingRight(runs.at, seen, key, Trail(seen, carried, key), Ending(seen, key, Trail(seen, carried, key)));
    } else if at[key].resolved.Some? && at[key].resolved.value.byKey in seen {
      var t := Trail(seen, carried, at[key].resolved.value.byKey);
      EndingRight(runs.at, seen, key, t, Ending(seen, key, t));
    }
  }

  /** The last two passes go on with it: a note is only replaced by an end that is done or at work. */
  lemma LateSaid(rules: Rules, runs: Runs, carried: Links, pass: Pass, at: Attempts, key: string, after: Attempts)
    requires Keyed(runs) && key in runs.at && "" !in runs.at && Kept(runs.at, at) && (pass.NoteNames? || pass.Numbers?)
    requires after == Sweep(Visit(rules, runs, carried, pass), at, runs.order) && Said(runs.at, at, at[key])
    ensures key in after && Said(runs.at, after, after[key])
  {
    var seen := PassAt(rules, runs, carried, pass, at, key);
    KeptTwice(runs.at, at, seen);
    KeptNamed(runs.at, seen);
    LateSeen(rules, runs, carried, pass, seen, at[key], after[key]);
    if at[key].resolved.Some? {
      var e := at[key].resolved.value.byKey;
      if e in at { NameStays(rules, runs, carried, pass, at, e, after); }
      NoteLater(runs.at, at, after, at[key].resolved.value);
    }
  }

  lemma LateSeen(rules: Rules, runs: Runs, carried: Links, pass: Pass, seen: Attempts, given: Attempt, r: Attempt)
    requires OwnKeys(seen) && Kept(runs.at, seen) && (pass.NoteNames? || pass.Numbers?)
    requires r == Visit(rules, runs, carried, pass)(seen, given)
    ensures r.resolved == given.resolved
        || (r.resolved.Some? && RightIn(runs.at, r.resolved) && !r.resolved.value.how.HowNote?)
  {
    if pass.NoteNames? { NoteSeen(rules, runs, carried, seen, given, r); }
  }

  lemma NoteSeen(rules: Rules, runs: Runs, carried: Links, seen: Attempts, given: Attempt, r: Attempt)
    requires OwnKeys(seen) && Kept(runs.at, seen) && r == NoteFollowed(rules, seen, carried, given)
    ensures r.resolved == given.resolved
        || (r.resolved.Some? && RightIn(runs.at, r.resolved) && !r.resolved.value.how.HowNote?)
  {
    if r.resolved != given.resolved {
      var e := EndOf(seen, carried, NamedBy(rules, seen, given.resolved.value).value);
      assert SameButNotes(runs.at[e], seen[e]);
    }
  }

  // ---------------------------------------------------------------- what is said in the end

  /**
   What became of an attempt, as `annotate` leaves it: when it names an end, it is called done exactly when that end is
   done, and running exactly when it is at work; any other end makes it a failure, a stop at a limit when the end is
   one, or, where the owner has spoken, a note. And a note without the owner's word for its end is only said where
   something is said of that end in turn.
   */
  lemma EndsRight(rules: Rules, runs: Runs, told: Attempts, key: string)
    requires Keyed(runs) && Plain(runs) && "" !in runs.at && told == Annotated(rules, runs).at && key in told
    ensures Said(runs.at, told, told[key])
  {
    var carried := CarriedMap(runs.at, runs.order);
    var s := AllPasses(rules, runs, carried);
    AllStanding(rules, runs, carried, s.one, s.two);
    WordGiven(rules, runs, carried, s.one, s.two, key);
    PassSaid(rules, runs, carried, StopEnds, s.two, key, s.three);
    PassStanding(rules, runs, carried, StopEnds, s.two, s.three);
    PassSaid(rules, runs, carried, Settles, s.three, key, s.four);
    LateSaid(rules, runs, carried, NoteNames, s.four, key, s.five);
    LateSaid(rules, runs, carried, Numbers, s.five, key, told);
  }

  // ---------------------------------------------------------------- who followed

  /** Of the attempts of a job, and its kin, those that are not much older than a broken one. */
  predicate NotMuchOlder(rules: Rules, runs: Runs, r: Attempt, k: string) {
    k in rules.related(runs, r.key) && k in runs.at && k != r.key && runs.at[k].updated >= r.updated - GRACE
  }

  /** The latest of them that is at work; when none is, the latest that finished. */
  ghost predicate TakenOver(rules: Rules, runs: Runs, r: Attempt, s: string) {
    && NotMuchOlder(rules, runs, r, s)
    && if Active(runs.at[s].status) then
         forall k :: NotMuchOlder(rules, runs, r, k) && Active(runs.at[k].status) && k != s
           ==> runs.at[k].updated < runs.at[s].updated
       else
         && runs.at[s].status.Done?
         && (forall k :: NotMuchOlder(rules, runs, r, k) ==> !Active(runs.at[k].status))
         && (forall k :: NotMuchOlder(rules, runs, r, k) && runs.at[k].status.Done? && k != s
               ==> runs.at[k].updated < runs.at[s].updated)
  }

  lemma {:induction false} NewestIs(at: Attempts, keys: seq<string>, w: Wanted, s: string)
    requires (forall k :: k in keys ==> k in at) && s in keys && Fits(w, at[s].status)
    requires forall k :: k in keys && Fits(w, at[k].status) && k != s ==> at[k].updated < at[s].updated
    ensures Newest(at, keys, w) == Some(s)
  {
    NewestIsLatest(at, keys, w);
  }

  lemma SuccessorTaken(rules: Rules, runs: Runs, r: Attempt, s: string, later: seq<string>)
    requires TakenOver(rules, runs, r, s) && later == Later(runs.at, rules.related(runs, r.key), r.key, r.updated)
    ensures Successor(runs.at, later) == Some(s)
  {
    assert forall k :: k in later <==> NotMuchOlder(rules, runs, r, k);
    if Active(runs.at[s].status) {
      NewestIs(runs.at, later, Working, s);
    } else {
      NewestIs(runs.at, later, Finished, s);
    }
  }

  lemma {:induction false} NewestKept(a: Attempts, b: Attempts, keys: seq<string>, w: Wanted)
    requires Kept(a, b) && forall k :: k in keys ==> k in a
    ensures Newest(a, keys, w) == Newest(b, keys, w)
  {
    if keys != [] {
      var last := keys[|keys| - 1];
      NewestKept(a, b, keys[..|keys| - 1], w);
      assert SameButNotes(a[last], b[last]);
      var m := Newest(a, keys[..|keys| - 1], w);
      if m.Some? { assert SameButNotes(a[m.value], b[m.value]); }
    }
  }

  lemma {:induction false} FollowNextKept(a: Attempts, b: Attempts, next: string, hops: nat, end: Option<string>)
    requires Kept(a, b) && (end.Some? ==> end.value in a)
    ensures FollowNext(a, next, hops, end) == FollowNext(b, next, hops, end)
    decreases hops
  {
    if next != "" && next in a && hops > 0 {
      assert SameButNotes(a[next], b[next]);
      FollowNextKept(a, b, a[next].next, hops - 1, Some(next));
    }
  }

  lemma FollowedKept(rules: Rules, runs: Runs, seen: Attempts, r: Attempt)
    requires Kept(runs.at, seen)
    ensures FollowedBy(rules, runs, seen, r) == FollowedBy(rules, runs, runs.at, r)
  {
    var later := Later(runs.at, rules.related(runs, r.key), r.key, r.updated);
    FollowNextKept(runs.at, seen, r.next, 8, None);
    LaterKept(runs.at, seen, rules.related(runs, r.key), r.key, r.updated);
    NewestKept(runs.at, seen, later, Working);
    NewestKept(runs.at, seen, later, Finished);
    NewestKept(runs.at, seen, later, Any);
  }

  /** An attempt that is at work or done, and that nothing leads on from. */
  predicate Ends(runs: Runs, s: string)
    requires Keyed(runs)
  {
    && s in runs.at && s !in CarriedMap(runs.at, runs.order) && (runs.at[s].next == "" || runs.at[s].next !in runs.at)
    && (Active(runs.at[s].status) || runs.at[s].status.Done?)
  }

  /** The attempts after the first three passes. */
  ghost predicate ThreePasses(rules: Rules, runs: Runs, carried: Links, one: Attempts, two: Attempts, three: Attempts)
    requires Keyed(runs)
  {
    && Kept(runs.at, one) && Kept(runs.at, two) && Kept(runs.at, three)
    && one == Sweep(Visit(rules, runs, carried, Fails), runs.at, runs.order)
    && two == Sweep(Visit(rules, runs, carried, StopNotes), one, runs.order)
    && three == Sweep(Visit(rules, runs, carried, StopEnds), two, runs.order)
  }

  /** Of an attempt that is at work or done nothing is said at any time. */
  lemma NothingSaid(rules: Rules, runs: Runs, carried: Links, one: Attempts, two: Attempts, three: Attempts, k: string)
    requires Keyed(runs) && Plain(runs) && carried == CarriedMap(runs.at, runs.order)
    requires ThreePasses(rules, runs, carried, one, two, three)
    requires k in runs.at && (Active(runs.at[k].status) || runs.at[k].status.Done?)
    ensures k in three && three[k].resolved.None?
  {
    FirstAt(rules, runs, carried, k, one[k]);
    StopNotedAt(rules, runs, carried, one, k, two[k]);
    StopEndedAt(rules, runs, carried, two, k, three[k]);
    NothingOf(runs.at[k], one[k], two[k]);
  }

  lemma NothingOf(given: Attempt, one: Attempt, two: Attempt)
    requires (Active(given.status) || given.status.Done?) && SameButNotes(given, one) && two == StopNoted(one)
    ensures !BrokenJob(given) && !one.status.BudgetStopped? && two == one
  {
  }

  lemma AloneTrail(seen: Attempts, carried: Links, s: string)
    requires s in seen && s !in carried && (seen[s].next == "" || seen[s].next !in seen) && seen[s].resolved.None?
    ensures Trail(seen, carried, s) == [s]
  {
    assert Preferred(seen, carried, s, s).None?;
  }

  /** The first three passes over a broken job the owner left alone. */
  lemma FollowerSaid(rules: Rules, runs: Runs, carried: Links, one: Attempts, two: Attempts, three: Attempts,
        key: string, s: string)
    requires Keyed(runs) && Plain(runs) && ThreePasses(rules, runs, carried, one, two, three)
    requires key in runs.at && BrokenJob(runs.at[key]) && LeftAlone(runs.at[key])
    requires s in runs.at && FollowedBy(rules, runs, runs.at, runs.at[key]) == Some(s)
    ensures three[key].resolved.Some? && three[key].resolved.value.byKey == s
  {
    FirstSaid(rules, runs, carried, one, key, s);
    assert SameButNotes(runs.at[key], one[key]) && SameButNotes(runs.at[key], two[key]);
    StopsPass(rules, runs, carried, StopNotes, one, key, two[key]);
    StopsPass(rules, runs, carried, StopEnds, two, key, three[key]);
  }

  lemma FirstSaid(rules: Rules, runs: Runs, carried: Links, one: Attempts, key: string, s: string)
    requires Keyed(runs) && key in runs.at && BrokenJob(runs.at[key]) && LeftAlone(runs.at[key])
    requires s in runs.at && FollowedBy(rules, runs, runs.at, runs.at[key]) == Some(s)
    requires one == Sweep(Visit(rules, runs, carried, Fails), runs.at, runs.order)
    ensures one[key].resolved.Some? && one[key].resolved.value.byKey == s
  {
    var seen := PassAt(rules, runs, carried, Fails, runs.at, key);
    FollowedKept(rules, runs, seen, runs.at[key]);
    assert SameButNotes(runs.at[s], seen[s]);
    FirstFollows(rules, runs, carried, seen, runs.at[key], s, one[key]);
  }

  lemma FirstFollows(rules: Rules, runs: Runs, carried: Links, seen: Attempts, given: Attempt, s: string, r: Attempt)
    requires BrokenJob(given) && LeftAlone(given) && s in seen && seen[s].key == s
        && FollowedBy(rules, runs, seen, given) == Some(s)
    requires r == Visit(rules, runs, carried, Fails)(seen, given)
    ensures r.resolved.Some? && r.resolved.value.byKey == s
  {
  }

  /** The fourth pass names the follower as the end, when nothing leads on from it. */
  lemma FollowerSettled(rules: Rules, runs: Runs, carried: Links, three: Attempts, four: Attempts, key: string,
        s: string)
    requires Keyed(runs) && Kept(runs.at, three) && carried == CarriedMap(runs.at, runs.order)
    requires four == Sweep(Visit(rules, runs, carried, Settles), three, runs.order)
    requires "" !in runs.at && key in runs.at && BrokenJob(runs.at[key]) && Ends(runs, s)
    requires three[key].resolved.Some? && three[key].resolved.value.byKey == s && three[s].resolved.None?
    ensures four[key].resolved.Some? && four[key].resolved.value.byKey == s
    ensures four[key].resolved.value.how == if runs.at[s].status.Done? then HowDone else HowRunning
  {
    var seen := SeenKept(rules, runs, carried, three, key, four);
    SettledAt(rules, runs, carried, three, s, four[s]);
    assert SameButNotes(runs.at[s], seen[s]) && SameButNotes(runs.at[key], seen[key]);
    AloneTrail(seen, carried, s);
    SettlesOn(rules, runs, carried, seen, three[key], s, four[key]);
  }

  lemma SeenKept(rules: Rules, runs: Runs, carried: Links, at: Attempts, key: string, after: Attempts)
        returns (seen: Attempts)
    requires Keyed(runs) && key in runs.at && Kept(runs.at, at)
        && after == Sweep(Visit(rules, runs, carried, Settles), at, runs.order)
    ensures Kept(runs.at, seen) && seen[key] == at[key] && Between(at, seen, after)
    ensures after[key] == Visit(rules, runs, carried, Settles)(seen, at[key])
  {
    KeepsKept(runs.at, rules, runs, carried);
    seen := Seen(rules, runs, carried, Settles, at, key, m => Kept(runs.at, m));
  }

  lemma KeepsKept(given: Attempts, rules: Rules, runs: Runs, carried: Links)
    ensures Preserves(Visit(rules, runs, carried, Settles), m => Kept(given, m))
  {
    var visit := Visit(rules, runs, carried, Settles);
    forall m: Attempts, k | k in m && Kept(given, m) ensures Kept(given, m[k := visit(m, m[k])]) {
      VisitKeeps(rules, runs, Settles, carried, m, m[k]);
      WrittenKept(given, m, k, visit(m, m[k]));
    }
  }

  lemma SettlesOn(rules: Rules, runs: Runs, carried: Links, seen: Attempts, given: Attempt, s: string, r: Attempt)
    requires !given.status.BudgetStopped? && given.resolved.Some? && given.resolved.value.byKey == s && s != ""
    requires s in seen && seen[s].key == s && Trail(seen, carried, s) == [s]
        && (Active(seen[s].status) || seen[s].status.Done?)
    requires r == Visit(rules, runs, carried, Settles)(seen, given)
    ensures r.resolved.Some? && r.resolved.value.byKey == s
    ensures r.resolved.value.how == if seen[s].status.Done? then HowDone else HowRunning
  {
  }

  lemma FollowerNamed(rules: Rules, runs: Runs, told: Attempts, key: string, s: string)
    requires Keyed(runs) && Plain(runs) && "" !in runs.at && told == Annotated(rules, runs).at && key in runs.at
        && key in told
    requires BrokenJob(runs.at[key]) && LeftAlone(runs.at[key]) && Ends(runs, s)
    requires FollowedBy(rules, runs, runs.at, runs.at[key]) == Some(s)
    ensures told[key].resolved.Some? && told[key].resolved.value.byKey == s
    ensures told[key].resolved.value.how == if runs.at[s].status.Done? then HowDone else HowRunning
  {
    var carried := CarriedMap(runs.at, runs.order);
    var st := AllPasses(rules, runs, carried);
    ThreeMade(rules, runs, carried, st, told);
    FollowerThrough(rules, runs, carried, st, told, key, s);
  }

  /** The last three passes. */
  ghost predicate LastThree(rules: Rules, runs: Runs, carried: Links, three: Attempts, four: Attempts, five: Attempts,
        six: Attempts)
    requires Keyed(runs)
  {
    && Kept(runs.at, three) && Kept(runs.at, four) && Kept(runs.at, five)
    && four == Sweep(Visit(rules, runs, carried, Settles), three, runs.order)
    && five == Sweep(Visit(rules, runs, carried, NoteNames), four, runs.order)
    && six == Sweep(Visit(rules, runs, carried, Numbers), five, runs.order)
  }

  lemma ThreeMade(rules: Rules, runs: Runs, carried: Links, st: Stages, told: Attempts)
    requires Keyed(runs) && Staged(rules, runs, carried, st) && told == Annotated(rules, runs).at
    ensures ThreePasses(rules, runs, carried, st.one, st.two, st.three)
    ensures LastThree(rules, runs, carried, st.three, st.four, st.five, told)
  {
  }

  lemma FollowerThrough(rules: Rules, runs: Runs, carried: Links, st: Stages, told: Attempts, key: string, s: string)
    requires Keyed(runs) && Plain(runs) && "" !in runs.at && key in runs.at
        && carried == CarriedMap(runs.at, runs.order)
    requires ThreePasses(rules, runs, carried, st.one, st.two, st.three)
    requires LastThree(rules, runs, carried, st.three, st.four, st.five, told)
    requires BrokenJob(runs.at[key]) && LeftAlone(runs.at[key]) && Ends(runs, s)
    requires FollowedBy(rules, runs, runs.at, runs.at[key]) == Some(s)
    ensures key in told && told[key].resolved.Some? && told[key].resolved.value.byKey == s
    ensures told[key].resolved.value.how == if runs.at[s].status.Done? then HowDone else HowRunning
  {
    FollowerFirst(rules, runs, carried, st.one, st.two, st.three, key, s);
    var how := if runs.at[s].status.Done? then HowDone else HowRunning;
    FollowerLast(rules, runs, carried, st.three, st.four, st.five, told, key, s, how);
  }

  lemma FollowerFirst(rules: Rules, runs: Runs, carried: Links, one: Attempts, two: Attempts, three: Attempts,
        key: string, s: string)
    requires Keyed(runs) && Plain(runs) && key in runs.at && carried == CarriedMap(runs.at, runs.order)
    requires BrokenJob(runs.at[key]) && LeftAlone(runs.at[key]) && Ends(runs, s)
    requires FollowedBy(rules, runs, runs.at, runs.at[key]) == Some(s)
    ensures ThreePasses(rules, runs, carried, one, two, three)
        ==> three[key].resolved.Some? && three[key].resolved.value.byKey == s && three[s].resolved.None?
  {
    if ThreePasses(rules, runs, carried, one, two, three) {
      NothingSaid(rules, runs, carried, one, two, three, s);
      FollowerSaid(rules, runs, carried, one, two, three, key, s);
    }
  }

  predicate EndedBy(r: Attempt, s: string, how: How) {
    r.resolved.Some? && r.resolved.value.byKey == s && r.resolved.value.how == how
  }

  lemma FollowerLast(rules: Rules, runs: Runs, carried: Links, three: Attempts, four: Attempts, five: Attempts,
        six: Attempts, key: string, s: string, how: How)
    requires Keyed(runs) && "" !in runs.at && key in runs.at && carried == CarriedMap(runs.at, runs.order)
    requires BrokenJob(runs.at[key]) && LeftAlone(runs.at[key]) && Ends(runs, s)
    requires key in three && s in three && three[key].resolved.Some? && three[key].resolved.value.byKey == s
    requires three[s].resolved.None? && how == if runs.at[s].status.Done? then HowDone else HowRunning
    ensures LastThree(rules, runs, carried, three, four, five, six) ==> key in six && EndedBy(six[key], s, how)
  {
    SettledIf(rules, runs, carried, three, four, five, six, key, s, how);
    LastPassesKeep(rules, runs, carried, three, four, five, six, key, s, how);
  }

  lemma SettledIf(rules: Rules, runs: Runs, carried: Links, three: Attempts, four: Attempts, five: Attempts,
        six: Attempts, key: string, s: string, how: How)
    requires Keyed(runs) && "" !in runs.at && key in runs.at && carried == CarriedMap(runs.at, runs.order)
    requires BrokenJob(runs.at[key]) && Ends(runs, s)
    requires key in three && s in three && three[key].resolved.Some? && three[key].resolved.value.byKey == s
    requires three[s].resolved.None? && how == if runs.at[s].status.Done? then HowDone else HowRunning
    ensures LastThree(rules, runs, carried, three, four, five, six) ==> key in four && EndedBy(four[key], s, how)
  {
    if LastThree(rules, runs, carried, three, four, five, six) {
      FollowerSettled(rules, runs, carried, three, four, key, s);
    }
  }

  lemma LastPassesKeep(rules: Rules, runs: Runs, carried: Links, three: Attempts, four: Attempts, five: Attempts,
        six: Attempts, key: string, s: string, how: How)
    requires Keyed(runs) && key in runs.at && LeftAlone(runs.at[key]) && !OwnersWord(how)
    ensures LastThree(rules, runs, carried, three, four, five, six) && key in four && EndedBy(four[key], s, how)
        ==> key in six && EndedBy(six[key], s, how)
  {
    if LastThree(rules, runs, carried, three, four, five, six) && key in four && EndedBy(four[key], s, how) {
      assert SameButNotes(runs.at[key], four[key]) && SameButNotes(runs.at[key], five[key]);
      NotesPass(rules, runs, carried, NoteNames, four, key, five[key]);
      NotesPass(rules, runs, carried, Numbers, five, key, six[key]);
    }
  }

  /**
   A broken job without a retry is said to be taken over by the latest related attempt that is at work, whatever
   finished or failed besides; when none is at work, to be done by the latest that finished.
   */
  lemma RelatedTaken(rules: Rules, runs: Runs, told: Attempts, key: string, s: string)
    requires Keyed(runs) && Plain(runs) && "" !in runs.at && told == Annotated(rules, runs).at && key in runs.at
        && key in told
    requires BrokenJob(runs.at[key]) && LeftAlone(runs.at[key]) && Ends(runs, s)
    requires (runs.at[key].next == "" || runs.at[key].next !in runs.at) && TakenOver(rules, runs, runs.at[key], s)
    ensures told[key].resolved.Some? && told[key].resolved.value.byKey == s
    ensures told[key].resolved.value.how == if runs.at[s].status.Done? then HowDone else HowRunning
  {
    var r := runs.at[key];
    SuccessorTaken(rules, runs, r, s, Later(runs.at, rules.related(runs, r.key), r.key, r.updated));
    FollowerNamed(rules, runs, told, key, s);
  }

  /** A broken job with retries is said to be ended by the last of them, whatever is related to it besides. */
  lemma RetryTaken(rules: Rules, runs: Runs, told: Attempts, key: string, path: seq<string>, s: string)
    requires Keyed(runs) && Plain(runs) && "" !in runs.at && told == Annotated(rules, runs).at && key in runs.at
        && key in told
    requires BrokenJob(runs.at[key]) && LeftAlone(runs.at[key]) && Ends(runs, s)
    requires path != [] && |path| <= 8 && Retries(runs.at, runs.at[key].next, path) && s == path[|path| - 1]
    ensures told[key].resolved.Some? && told[key].resolved.value.byKey == s
    ensures told[key].resolved.value.how == if runs.at[s].status.Done? then HowDone else HowRunning
  {
    PathEnds(runs.at, runs.at[key].next, 8, None, path);
    FollowerNamed(rules, runs, told, key, s);
  }

  lemma {:induction false} PathEnds(at: Attempts, first: string, hops: nat, end: Option<string>, path: seq<string>)
    requires Retries(at, first, path) && |path| <= hops && (end.Some? ==> end.value in at)
    requires LinkAfter(at, first, path) == "" || LinkAfter(at, first, path) !in at
    ensures FollowNext(at, first, hops, end) == if path == [] then end else Some(path[|path| - 1])
    decreases hops
  {
    if path != [] {
      var rest := path[1..];
      assert Retries(at, at[first].next, rest) by {
        assert forall i :: 0 <= i < |rest| ==> rest[i] == path[i + 1];
      }
      PathEnds(at, at[first].next, hops - 1, Some(first), rest);
    }
  }
}
