/**
 engine/chain.js: the attempts of a task, the links between them and where a chain ends. The text rules (why a run
 failed, which jobs belong together, which job a note names) are given functions; the walk over the links, which may
 form cycles or lead nowhere, and the passes of `annotate` over the shared attempts are modelled as they are.
 */
module Chain {
  import opened Prelude

  datatype Status = Queued | Running | Done | Failed | Stopped | Interrupted | BudgetStopped

  datatype Reason = Limit | Auth | Capacity | Refused | Turns | Error | Unknown | Crash | OnPurpose | Budget

  datatype How = HowStopped | HowNote | HowDone | HowRunning | HowBudget | HowFailed

  /** What became of an attempt: `byKey` is the key of the attempt that ended it ("" when there is none). */
  datatype Resolved = Resolved(how: How, byKey: string, note: string, path: seq<string>, said: string)

  datatype Facts = Facts(exit: Option<int>, finalText: string, hasFinal: bool, apiError: string, stopKind: string,
        session: string)

  /** An attempt; a link or text that is not there is "". */
  datatype Attempt = Attempt(
    key: string, runner: string, name: string, status: Status, updated: int, error: string,
    next: string, prev: string, parent: string, resolvedNote: string, stopped: bool, hung: bool, model: string,
    hit: string, wrapUp: bool, facts: Facts,
    reason: Option<Reason>, resolved: Option<Resolved>, attempt: nat)

  /** The attempts by key. */
  type Attempts = map<string, Attempt>

  /** From an attempt's key to another one's. */
  type Links = map<string, string>

  /** The attempts by key, and the order they were given in. */
  datatype Runs = Runs(order: seq<string>, at: Attempts)

  ghost predicate Keyed(runs: Runs) {
    && (forall i, j :: 0 <= i < j < |runs.order| ==> runs.order[i] != runs.order[j])
    && (forall k :: k in runs.order <==> k in runs.at)
    && (forall k :: k in runs.at ==> runs.at[k].key == k)
  }

  /** The text rules of the source. */
  datatype Rules = Rules(
    reason: string -> Reason,
    context: string -> bool,
    incomplete: string -> bool,
    cutOff: string -> bool,
    /** The attempts of the same job and of its kin, in the order they are searched. */
    related: (Runs, string) -> seq<string>,
    /** The keys a note mentions, in order. */
    mentions: string -> seq<string>)

  const RUNNERS := {"dsh", "cx", "cc", "oc", "pg", "mm", "cm"}

  predicate Active(s: Status) { s.Running? || s.Queued? }

  predicate Broken(s: Status) { s.Failed? || s.Stopped? || s.Interrupted? }

  // ---------------------------------------------------------------- carriedMap

  /** The attempt that carried each attempt on, of the first attempts of a list. */
  function CarriedMap(at: Attempts, keys: seq<string>): Links
    requires forall k :: k in keys ==> k in at
  {
    if keys == [] then map[] else Carry(at, CarriedMap(at, keys[..|keys| - 1]), keys[|keys| - 1])
  }

  function Carry(at: Attempts, m: Links, k: string): Links
    requires k in at
  {
    var p := at[k].parent;
    if p != "" && p in at && !(p in m && m[p] in at && at[m[p]].updated >= at[k].updated) then m[p := k] else m
  }

  method CarriedBy(at: Attempts, order: seq<string>) returns (carried: Links)
    requires forall k :: k in order ==> k in at
    ensures carried == CarriedMap(at, order)
  {
    carried := map[];
    for i := 0 to |order|
      invariant carried == CarriedMap(at, order[..i])
    {
      assert order[..i + 1][..i] == order[..i];
      var p := at[order[i]].parent;
      if p != "" && p in at && !(p in carried && carried[p] in at && at[carried[p]].updated >= at[order[i]].updated) {
        carried := carried[p := order[i]];
      }
    }
    assert order[..|order|] == order;
  }

  /** Some attempt names this one as its parent. */
  predicate Names(at: Attempts, k: string, p: string) {
    k in at && at[k].parent == p && p != "" && p in at
  }

  /** The attempt at an index is the latest that names its parent; of equally late ones, the first. */
  ghost predicate Latest(at: Attempts, keys: seq<string>, p: string, i: nat) {
    && i < |keys| && Names(at, keys[i], p)
    && forall j :: 0 <= j < |keys| && Names(at, keys[j], p) ==> Before(at[keys[j]].updated, j, at[keys[i]].updated, i)
  }

  predicate Before(u: int, j: nat, v: int, i: nat) { u < v || (u == v && i <= j) }

  /** The one that carried an attempt on is the latest that names it as its parent, and there is one when any does. */
  lemma {:induction false} LatestCarries(at: Attempts, keys: seq<string>, p: string)
    requires forall k :: k in keys ==> k in at
    ensures if p in CarriedMap(at, keys)
        then exists i: nat :: Latest(at, keys, p, i) && CarriedMap(at, keys)[p] == keys[i]
            else forall i :: 0 <= i < |keys| ==> !Names(at, keys[i], p)
  {
    if keys != [] {
      var n := |keys| - 1;
      LatestCarries(at, keys[..n], p);
      var was := CarriedMap(at, keys[..n]);
      if p in was {
        var i: nat :| Latest(at, keys[..n], p, i) && was[p] == keys[..n][i];
        LatestStep(at, keys, p, i);
      } else {
        assert forall j :: 0 <= j < n ==> keys[..n][j] == keys[j];
        if Names(at, keys[n], p) { assert Latest(at, keys, p, n); }
      }
    }
  }

  lemma LatestStep(at: Attempts, keys: seq<string>, p: string, i: nat)
    requires keys != [] && Latest(at, keys[..|keys| - 1], p, i)
    ensures Latest(at, keys, p, if Names(at, keys[|keys| - 1], p)
        && at[keys[|keys| - 1]].updated > at[keys[i]].updated then |keys| - 1 else i)
  {
    var n := |keys| - 1;
    assert forall j :: 0 <= j < n ==> keys[..n][j] == keys[j];
  }

  // ---------------------------------------------------------------- settleChain

  /** The link that is followed from an attempt: carried on by, else its retry, else what resolved it. */
  function Preferred(at: Attempts, carried: Links, end: string, start: string): (r: Option<string>)
    requires end in at
    ensures r.Some? ==> r.value in at && r.value != end
  {
    var e := at[end];
    if end in carried && carried[end] in at && carried[end] != end then Some(carried[end])
    else if e.next != "" && e.next in at && e.next != end then Some(e.next)
    else if e.resolved.Some? && e.resolved.value.byKey != "" && e.resolved.value.byKey in at
        && e.resolved.value.byKey != end && e.resolved.value.byKey != start
      then Some(e.resolved.value.byKey)
    else None
  }

  /** The three links of an attempt: the one that carried it on, its retry, and what resolved it. */
  predicate CarriesOn(at: Attempts, carried: Links, e: string, k: string) {
    e in carried && carried[e] == k && k in at && k != e
  }

  predicate HasRetry(at: Attempts, e: string, k: string) { e in at && at[e].next == k && k != "" && k in at && k != e }

  predicate Resolves(at: Attempts, e: string, start: string, k: string) {
    e in at && at[e].resolved.Some? && at[e].resolved.value.byKey == k && k !in {"", e, start} && k in at
  }

  /**
   The first of them that leads anywhere is followed; what resolved an attempt is never followed back to the start.
   */
  lemma PreferredIff(at: Attempts, carried: Links, e: string, start: string, k: string)
    requires e in at
    ensures Preferred(at, carried, e, start) == Some(k) <==>
      || CarriesOn(at, carried, e, k)
      || (HasRetry(at, e, k) && forall j :: !CarriesOn(at, carried, e, j))
      || (Resolves(at, e, start, k) && forall j :: !CarriesOn(at, carried, e, j) && !HasRetry(at, e, j))
  {
    if e in carried { assert CarriesOn(at, carried, e, carried[e]) <==> carried[e] in at && carried[e] != e; }
    assert HasRetry(at, e, at[e].next) <==> at[e].next != "" && at[e].next in at && at[e].next != e;
  }

  const HOPS := 12

  function Walk(at: Attempts, carried: Links, start: string, trail: seq<string>, hops: nat): (r: seq<string>)
    requires trail != [] && forall k :: k in trail ==> k in at
    ensures trail <= r && forall k :: k in r ==> k in at
    decreases hops, trail
  {
    var s := Preferred(at, carried, trail[|trail| - 1], start);
    if hops == 0 || s.None? || s.value in trail then trail else Walk(at, carried, start, trail + [s.value], hops - 1)
  }

  /** The attempts a chain passes through from one of them, to the one it ends in. */
  function Trail(at: Attempts, carried: Links, start: string): (r: seq<string>)
    requires start in at
    ensures r != [] && forall k :: k in r ==> k in at
  {
    Walk(at, carried, start, [start], HOPS)
  }

  function EndOf(at: Attempts, carried: Links, start: string): (r: string)
    requires start in at
    ensures r in at
  {
    var t := Trail(at, carried, start);
    t[|t| - 1]
  }

  lemma EndIsWalk(at: Attempts, carried: Links, start: string, r: seq<string>)
    requires start in at && r == Walk(at, carried, start, [start], HOPS)
    ensures EndOf(at, carried, start) == r[|r| - 1]
  {
  }

  method SettleChain(at: Attempts, carried: Links, start: string) returns (end: string, trail: seq<string>)
    requires start in at
    ensures trail == Trail(at, carried, start) && end == trail[|trail| - 1]
  {
    end, trail := start, [start];
    var hops := 0;
    while hops < HOPS
      invariant 0 <= hops <= HOPS && trail != [] && end == trail[|trail| - 1] && forall k :: k in trail ==> k in at
      invariant Walk(at, carried, start, trail, HOPS - hops) == Trail(at, carried, start)
    {
      WalkOnce(at, carried, start, trail, HOPS - hops);
      hops := hops + 1;
      var step := Preferred(at, carried, end, start);
      if step.None? || step.value in trail { break; }
      end := step.value;
      trail := trail + [end];
    }
  }

  lemma WalkOnce(at: Attempts, carried: Links, start: string, trail: seq<string>, hops: nat)
    requires trail != [] && (forall k :: k in trail ==> k in at) && hops > 0
    ensures var s := Preferred(at, carried, trail[|trail| - 1], start);
            Walk(at, carried, start, trail, hops) == if s.None? || s.value in trail then trail
                else Walk(at, carried, start, trail + [s.value], hops - 1)
  {
  }

  /** One attempt leads to another: through who carried it on, its retry, or what resolved it. */
  predicate Linked(at: Attempts, carried: Links, a: string, b: string) {
    a in at && (
      || (a in carried && carried[a] == b)
      || at[a].next == b
      || (at[a].resolved.Some? && at[a].resolved.value.byKey == b))
  }

  ghost predicate IsPath(at: Attempts, carried: Links, trail: seq<string>) {
    && (forall i, j :: 0 <= i < j < |trail| ==> trail[i] != trail[j])
    && (forall i :: 0 < i < |trail| ==> Linked(at, carried, trail[i - 1], trail[i]))
  }

  lemma {:induction false} WalkIsPath(at: Attempts, carried: Links, start: string, trail: seq<string>, hops: nat,
        r: seq<string>)
    requires trail != [] && (forall k :: k in trail ==> k in at) && IsPath(at, carried, trail)
    requires r == Walk(at, carried, start, trail, hops)
    ensures IsPath(at, carried, r) && |r| <= |trail| + hops
    ensures |r| < |trail| + hops ==> StopsAt(at, carried, start, r)
    decreases hops
  {
    var s := Preferred(at, carried, trail[|trail| - 1], start);
    if hops > 0 && s.Some? && s.value !in trail {
      LinkedOnce(at, carried, start, trail, s.value);
      WalkIsPath(at, carried, start, trail + [s.value], hops - 1, r);
    }
  }

  /** The link that is followed from the end of a trail is missing or leads back into it. */
  ghost predicate StopsAt(at: Attempts, carried: Links, start: string, trail: seq<string>)
    requires trail != [] && trail[|trail| - 1] in at
  {
    var s := Preferred(at, carried, trail[|trail| - 1], start); s.None? || s.value in trail
  }

  lemma LinkedOnce(at: Attempts, carried: Links, start: string, trail: seq<string>, k: string)
    requires trail != [] && IsPath(at, carried, trail) && k !in trail && trail[|trail| - 1] in at
    requires Preferred(at, carried, trail[|trail| - 1], start) == Some(k)
    ensures IsPath(at, carried, trail + [k])
  {
  }

  /**
   On any graph of attempts, with cycles and links that lead nowhere: the trail starts where it was asked to, visits no
   attempt twice, follows a link at every step, is at most 13 long, and is shorter only when the link followed from its
   end is missing or leads back into it.
   */
  lemma TrailIsPath(at: Attempts, carried: Links, start: string)
    requires start in at
    ensures var t := Trail(at, carried, start); var s := Preferred(at, carried, t[|t| - 1], start);
            && t[0] == start && IsPath(at, carried, t) && |t| <= HOPS + 1
            && (|t| < HOPS + 1 ==> s.None? || s.value in t)
  {
    WalkIsPath(at, carried, start, [start], HOPS, Trail(at, carried, start));
  }

  // ---------------------------------------------------------------- when the walk is complete

  /**
   A link the walk may follow from an attempt: who carried it on, its retry, or what resolved it (but never back to the
   start).
   */
  predicate Follows(at: Attempts, carried: Links, e: string, start: string, k: string) {
    && e in at && k in at && k != e
    && (|| (e in carried && carried[e] == k)
        || (k != "" && at[e].next == k)
        || (k != "" && k != start && at[e].resolved.Some? && at[e].resolved.value.byKey == k))
  }

  /** A walk that stops early has no link left to follow from its end: each leads back into the trail. */
  ghost predicate Complete(at: Attempts, carried: Links, start: string)
    requires start in at
  {
    forall k :: !Misses(at, carried, start, k)
  }

  /** The walk stops early although its end has a link to an attempt it has not visited. */
  ghost predicate Misses(at: Attempts, carried: Links, start: string, k: string)
    requires start in at
  {
    var t := Trail(at, carried, start);
    |t| < HOPS + 1 && Follows(at, carried, t[|t| - 1], start, k) && k !in t
  }

  function After(loop: seq<string>, j: nat): string
    requires j < |loop|
  {
    if j + 1 < |loop| then loop[j + 1] else loop[0]
  }

  ghost predicate StepsTo(at: Attempts, carried: Links, e: string, start: string, k: string) {
    e in at && Preferred(at, carried, e, start) == Some(k)
  }

  /** Preferred links that lead round, within a walk's length. */
  ghost predicate Loop(at: Attempts, carried: Links, loop: seq<string>) {
    && 0 < |loop| <= HOPS
    && (forall i, j :: 0 <= i < j < |loop| ==> loop[i] != loop[j])
    && (forall j: nat :: j < |loop| ==> StepsTo(at, carried, loop[j], loop[0], After(loop, j)))
  }

  /** A loop with a way out: its last attempt links to one that is not in it. */
  ghost predicate LeftLoop(at: Attempts, carried: Links, loop: seq<string>, k: string) {
    Loop(at, carried, loop) && k !in loop && Follows(at, carried, loop[|loop| - 1], loop[0], k)
  }

  lemma PreferredFollows(at: Attempts, carried: Links, e: string, start: string, k: string)
    requires Follows(at, carried, e, start, k)
    ensures Preferred(at, carried, e, start).Some?
    ensures Follows(at, carried, e, start, Preferred(at, carried, e, start).value)
  {
  }

  /**
   A preferred link does not depend on the start, but that one cannot be led back to it by what resolved an attempt.
   */
  lemma PreferredFrom(at: Attempts, carried: Links, e: string, start: string, other: string, k: string)
    requires StepsTo(at, carried, e, start, k)
    ensures k != other ==> StepsTo(at, carried, e, other, k)
    ensures forall j :: Follows(at, carried, e, start, j) && j != k ==> StepsTo(at, carried, e, other, k)
  {
  }

  /** Each attempt of a trail is the one preferred after the one before it. */
  ghost predicate Stepped(at: Attempts, carried: Links, start: string, trail: seq<string>) {
    forall j: nat :: j + 1 < |trail| ==> StepsTo(at, carried, trail[j], start, trail[j + 1])
  }

  lemma SteppedOnce(at: Attempts, carried: Links, start: string, trail: seq<string>, k: string)
    requires trail != [] && Stepped(at, carried, start, trail) && StepsTo(at, carried, trail[|trail| - 1], start, k)
    ensures Stepped(at, carried, start, trail + [k])
  {
    var more := trail + [k];
    forall j: nat | j + 1 < |more| ensures StepsTo(at, carried, more[j], start, more[j + 1]) {
      if j + 1 < |trail| { assert StepsTo(at, carried, trail[j], start, trail[j + 1]); }
    }
  }

  lemma {:induction false} WalkStepped(at: Attempts, carried: Links, start: string, trail: seq<string>, hops: nat,
        r: seq<string>)
    requires trail != [] && (forall k :: k in trail ==> k in at) && Stepped(at, carried, start, trail)
    requires r == Walk(at, carried, start, trail, hops)
    ensures Stepped(at, carried, start, r)
    decreases hops
  {
    var s := Preferred(at, carried, trail[|trail| - 1], start);
    if hops > 0 && s.Some? && s.value !in trail {
      SteppedOnce(at, carried, start, trail, s.value);
      WalkStepped(at, carried, start, trail + [s.value], hops - 1, r);
    }
  }

  /** One step round a loop. */
  lemma RoundOnce(at: Attempts, carried: Links, start: string, trail: seq<string>, hops: nat, k: string,
        more: seq<string>)
    requires trail != [] && hops > 0 && (forall k :: k in trail ==> k in at) && more == trail + [k] && k !in trail
    requires StepsTo(at, carried, trail[|trail| - 1], start, k)
    ensures (forall k :: k in more ==> k in at)
        && Walk(at, carried, start, trail, hops) == Walk(at, carried, start, more, hops - 1)
  {
    WalkOnce(at, carried, start, trail, hops);
  }

  /** A walk that starts a loop and has come to a place of it. */
  ghost predicate Round(at: Attempts, carried: Links, loop: seq<string>, trail: seq<string>, r: seq<string>)
    requires loop != []
  {
    && 0 < |trail| <= |loop| <= HOPS && trail == loop[..|trail|] && (forall k :: k in trail ==> k in at)
    && r == Walk(at, carried, loop[0], trail, HOPS + 1 - |trail|)
  }

  lemma FrontNext(loop: seq<string>, trail: seq<string>, more: seq<string>, n: nat)
    requires 0 < n < |loop| && trail == loop[..n] && more == loop[..n + 1] && forall i ::
        0 <= i < n ==> loop[i] != loop[n]
    ensures more == trail + [loop[n]] && loop[n] !in trail && trail[n - 1] == loop[n - 1]
  {
  }

  lemma RoundNext(at: Attempts, carried: Links, loop: seq<string>, trail: seq<string>, r: seq<string>,
        more: seq<string>)
    requires Loop(at, carried, loop) && |trail| < |loop| && Round(at, carried, loop, trail, r)
        && more == loop[..|trail| + 1]
    ensures Round(at, carried, loop, more, r)
  {
    var n := |trail|;
    assert StepsTo(at, carried, loop[n - 1], loop[0], After(loop, n - 1));
    FrontNext(loop, trail, more, n);
    RoundOnce(at, carried, loop[0], trail, HOPS + 1 - n, loop[n], more);
  }

  lemma RoundEnds(at: Attempts, carried: Links, loop: seq<string>, r: seq<string>)
    requires Loop(at, carried, loop) && Round(at, carried, loop, loop, r)
    ensures r == loop
  {
    var n := |loop| - 1;
    assert StepsTo(at, carried, loop[n], loop[0], After(loop, n));
    assert loop[0] in loop;
    WalkOnce(at, carried, loop[0], loop, HOPS - n);
  }

  /** A loop, entered at its first attempt, is walked round once. */
  lemma {:induction false} WalkRound(at: Attempts, carried: Links, loop: seq<string>, trail: seq<string>,
        r: seq<string>)
    requires loop != []
    ensures Loop(at, carried, loop) && Round(at, carried, loop, trail, r) ==> r == loop
    decreases |loop| - |trail|
  {
    if Loop(at, carried, loop) && Round(at, carried, loop, trail, r) {
      if |trail| == |loop| {
        assert trail == loop;
        RoundEnds(at, carried, loop, r);
      } else {
        RoundNext(at, carried, loop, trail, r, loop[..|trail| + 1]);
        WalkRound(at, carried, loop, loop[..|trail| + 1], r);
      }
    }
  }

  lemma LeftLoopIncomplete(at: Attempts, carried: Links, loop: seq<string>, k: string)
    requires LeftLoop(at, carried, loop, k)
    ensures loop[0] in at && Misses(at, carried, loop[0], k)
  {
    assert StepsTo(at, carried, loop[0], loop[0], After(loop, 0));
    assert loop[..1] == [loop[0]];
    WalkRound(at, carried, loop, [loop[0]], Trail(at, carried, loop[0]));
  }

  lemma IncompleteLoop(at: Attempts, carried: Links, start: string, trail: seq<string>, k: string)
        returns (loop: seq<string>)
    requires start in at && trail == Trail(at, carried, start) && Misses(at, carried, start, k)
    ensures LeftLoop(at, carried, loop, k)
  {
    var n := |trail| - 1;
    TrailIsPath(at, carried, start);
    WalkStepped(at, carried, start, [start], HOPS, trail);
    PreferredFollows(at, carried, trail[n], start, k);
    var back := Preferred(at, carried, trail[n], start).value;
    var i: nat :| i < |trail| && trail[i] == back;
    loop := trail[i..];
    PreferredFrom(at, carried, trail[n], start, back, back);
    BackLoop(at, carried, start, trail, i, loop);
    BackLeft(trail, i, k, loop);
  }

  lemma BackLeft(trail: seq<string>, i: nat, k: string, loop: seq<string>)
    requires i < |trail| && loop == trail[i..] && k !in trail
    ensures k !in loop && loop[0] == trail[i] && loop[|loop| - 1] == trail[|trail| - 1] && k != trail[i]
  {
  }

  lemma BackLoop(at: Attempts, carried: Links, start: string, trail: seq<string>, i: nat, loop: seq<string>)
    requires i < |trail| && |trail| - i <= HOPS && loop == trail[i..] && Stepped(at, carried, start, trail)
    requires forall i, j :: 0 <= i < j < |trail| ==> trail[i] != trail[j]
    requires StepsTo(at, carried, trail[|trail| - 1], trail[i], trail[i])
    ensures Loop(at, carried, loop)
  {
    forall j: nat | j < |loop| ensures StepsTo(at, carried, loop[j], loop[0], After(loop, j)) {
      if j + 1 < |loop| {
        assert StepsTo(at, carried, trail[i + j], start, trail[i + j + 1]);
        PreferredFrom(at, carried, trail[i + j], start, trail[i], trail[i + j + 1]);
      }
    }
  }

  /**
   On any graph, a walk that stops early has followed every link there is, wherever it is started, if and only if no
   loop of preferred links, short enough to be walked round, ends in an attempt with a link out of it.
   */
  lemma CompleteIff(at: Attempts, carried: Links)
    ensures (forall start :: start in at ==> Complete(at, carried, start))
       <==> !exists loop, k :: LeftLoop(at, carried, loop, k)
  {
    if loop, k :| LeftLoop(at, carried, loop, k) { LeftLoopIncomplete(at, carried, loop, k); }
    if start :| start in at && !Complete(at, carried, start) {
      var k :| Misses(at, carried, start, k);
      var loop := IncompleteLoop(at, carried, start, Trail(at, carried, start), k);
    }
  }

  /** No attempt has links to two others. */
  ghost predicate OneWay(at: Attempts, carried: Links) {
    forall e, start, j, k :: Follows(at, carried, e, start, j) && Follows(at, carried, e, start, k) ==> j == k
  }

  /** Where no attempt has links to two others, every walk that stops early is complete. */
  lemma OneWayComplete(at: Attempts, carried: Links, start: string)
    requires OneWay(at, carried) && start in at
    ensures Complete(at, carried, start)
  {
    if loop, k :| LeftLoop(at, carried, loop, k) {
      var e := loop[|loop| - 1];
      assert StepsTo(at, carried, e, loop[0], After(loop, |loop| - 1));
      PreferredFollows(at, carried, e, loop[0], k);
      assert false;
    }
    CompleteIff(at, carried);
  }

  /**
   The walk does not look for another way: a retry it has not visited is not followed once the preferred link leads
   back.
   */
  lemma OtherLinksNotFollowed(a: Attempt, b: Attempt, c: Attempt)
    requires a.key == "a" && b.key == "b" && c.key == "c"
    requires a.parent == "b" && b.parent == "a" && c.parent == "" && b.next == "c" && a.next == "" && c.next == ""
    ensures var at := map["a" := a, "b" := b, "c" := c];
            var carried := CarriedMap(at, ["a", "b", "c"]);
            Trail(at, carried, "a") == ["a", "b"] && Linked(at, carried, "b", "c") && "c" !in Trail(at, carried, "a")
  {
    var at := map["a" := a, "b" := b, "c" := c];
    var keys := ["a", "b", "c"];
    assert keys[..2] == ["a", "b"] && ["a", "b"][..1] == ["a"] && ["a"][..0] == [];
    assert CarriedMap(at, ["a"]) == Carry(at, map[], "a") == map["b" := "a"];
    assert CarriedMap(at, ["a", "b"]) == Carry(at, map["b" := "a"], "b") == map["b" := "a", "a" := "b"];
    var carried := CarriedMap(at, keys);
    assert carried == map["b" := "a", "a" := "b"];
    assert Preferred(at, carried, "a", "a") == Some("b");
    assert Preferred(at, carried, "b", "a") == Some("a");
    assert Walk(at, carried, "a", ["a"] + ["b"], HOPS - 1) == ["a", "b"];
  }
}
