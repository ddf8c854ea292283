/**
 harness/index.js `run`: one task, one agent after the other. Each attempt ends by itself, by an error or because it
 went quiet; the next agent gets the task when it failed; the run ends with one result. Routing, availability and what
 the agents do are given: the world.
 */
module HarnessRun {
  import opened Prelude

  /** What the race between an agent's next event and the stall timer brings. */
  datatype Turn = Quiet | Says(id: int) | Concludes(isError: bool, text: string)

  datatype Event =
    | Result(isError: bool, text: string, attempt: nat)
    | Told(id: int, attempt: nat)
    | Error(text: string)
    | Handoff(from: string, attempt: nat)

  /** The agent the caller asked for, and why it cannot take the run. */
  datatype Asked = Nobody | Ready(agent: string) | Unable(text: string)

  /**
   `route` is the placement decision in an attempt when some agents were tried; `plays` is what the agent of an attempt
   does until it ends, `aborted` whether the caller has given up by then.
   */
  datatype World = World(asked: Asked, route: (nat, seq<string>) -> Option<string>, plays: nat -> seq<Turn>,
        aborted: nat -> bool,
                         handoff: bool, maxAttempts: real)

  datatype Attempt = Attempt(agent: string, ok: bool, stalled: bool)

  /** The attempts, what was yielded, what went to the store, and the result so far. */
  datatype Run = Run(attempts: seq<Attempt>, out: seq<Event>, stored: seq<Event>, final: Option<Event>)

  const NEW := Run([], [], [], None)

  // ---------------------------------------------------------------- one attempt

  function Tagged(t: Turn, n: nat): seq<Event> {
    match t
    case Quiet => []
    case Says(id) => [Told(id, n)]
    case Concludes(isError, text) => [Result(isError, text, n)]
  }

  /** Everything an agent sent, in order. */
  function Sent(turns: seq<Turn>, n: nat): seq<Event> {
    if turns == [] then [] else Sent(turns[..|turns| - 1], n) + Tagged(turns[|turns| - 1], n)
  }

  /** What of some events is shown at once: all but results. */
  function Shown(events: seq<Event>): seq<Event> {
    if events == [] then []
    else Shown(events[..|events| - 1]) + if events[|events| - 1].Result? then [] else [events[|events| - 1]]
  }

  lemma {:induction false} ShownAppend(a: seq<Event>, b: seq<Event>)
    ensures Shown(a + b) == Shown(a) + Shown(b)
  {
    if b == [] {
      assert a + b == a;
    } else {
      ShownAppend(a, b[..|b| - 1]);
      assert (a + b)[..|a + b| - 1] == a + b[..|b| - 1];
    }
  }

  lemma {:induction false} ShownHasNoResult(a: seq<Event>)
    ensures forall e :: e in Shown(a) ==> !e.Result?
  {
    if a != [] { ShownHasNoResult(a[..|a| - 1]); }
  }

  /** The last result an agent reported. */
  function Concluded(turns: seq<Turn>): (r: Option<Turn>)
    ensures r.Some? ==> r.value.Concludes?
  {
    if turns == [] then None
    else if turns[|turns| - 1].Concludes? then Some(turns[|turns| - 1])
    else Concluded(turns[..|turns| - 1])
  }

  predicate Stalls(turns: seq<Turn>) { Quiet in turns }

  const WENT_QUIET := "went quiet and was stopped"
  const NO_RESULT := "the agent ended without a result"

  predicate Succeeds(turns: seq<Turn>) { !Stalls(turns) && Concluded(turns).Some? && !Concluded(turns).value.isError }

  /** The result of an attempt. */
  function ResultOf(turns: seq<Turn>, n: nat): Event {
    if Stalls(turns) then Result(true, WENT_QUIET, n)
    else if Concluded(turns).Some? then Result(Concluded(turns).value.isError, Concluded(turns).value.text, n)
    else Result(true, NO_RESULT, n)
  }

  // ---------------------------------------------------------------- the run as a function

  datatype Pick = Agent(name: string) | Refused(text: string) | NoAgent(text: string)

  function PickFor(w: World, n: nat, tried: seq<string>): Pick {
    if n == 1 && w.asked.Unable? then Refused(w.asked.text)
    else if n == 1 && w.asked.Ready? then Agent(w.asked.agent)
    else if w.route(n, tried).Some? then Agent(w.route(n, tried).value)
    else NoAgent(if n == 1 then "no available agent can take this task" else "no other agent is available to take over")
  }

  function Agents(attempts: seq<Attempt>): seq<string> {
    seq(|attempts|, i requires 0 <= i < |attempts| => attempts[i].agent)
  }

  /** The last attempt the loop allows. */
  function Limit(w: World): (r: nat)
    ensures r as real <= MaxR(1.0, w.maxAttempts) < r as real + 1.0
  {
    MaxR(1.0, w.maxAttempts).Floor
  }

  predicate Within(w: World, n: nat) { n <= Limit(w) }

  /** An attempt and what it leaves behind, without what the run yields at its end. */
  function Tried(w: World, n: nat, s: Run, agent: string): Run {
    var turns := w.plays(n);
    s.(attempts := s.attempts + [Attempt(agent, Succeeds(turns), Stalls(turns))],
       out := s.out + Shown(Sent(turns, n)), stored := s.stored + Sent(turns, n), final := Some(ResultOf(turns, n)))
  }

  /** The run ends with this attempt. */
  predicate Ends(w: World, n: nat) { Succeeds(w.plays(n)) || !w.handoff || w.aborted(n) || n as real >= w.maxAttempts }

  function Yielded(s: Run): Run { if s.final.Some? then s.(out := s.out + [s.final.value]) else s }

  function HandedOn(s: Run, agent: string, n: nat): Run {
    s.(out := s.out + [Handoff(agent, n + 1)], stored := s.stored + [Handoff(agent, n + 1)])
  }

  function From(w: World, n: nat, s: Run): Run
    decreases Limit(w) - n
  {
    if !Within(w, n) then s
    else
      match PickFor(w, n, Agents(s.attempts))
      case Refused(text) => Yielded(s.(final := Some(Result(true, text, 0))))
      case NoAgent(text) =>
        var told := s.(out := s.out + [Error(text)]);
        Yielded(if n == 1 then told.(final := Some(Result(true, text, 0))) else told)
      case Agent(a) =>
        var t := Tried(w, n, s, a);
        if Ends(w, n) then Yielded(t) else From(w, n + 1, HandedOn(t, a, n))
  }

  function RunOf(w: World): Run { From(w, 1, NEW) }

  // ---------------------------------------------------------------- the loops

  /** One attempt: the agent's events until it ends, through any stalls; a `next()` in flight is never given up. */
  method Follow(turns: seq<Turn>, n: nat)
    returns (shown: seq<Event>, sent: seq<Event>, res: Option<Turn>, stalled: bool)
    ensures shown == Shown(Sent(turns, n)) && sent == Sent(turns, n)
    ensures res == Concluded(turns) && stalled == Stalls(turns)
  {
    shown, sent, res, stalled := [], [], None, false;
    for i := 0 to |turns|
      invariant shown == Shown(Sent(turns[..i], n)) && sent == Sent(turns[..i], n)
      invariant res == Concluded(turns[..i]) && stalled == Stalls(turns[..i])
    {
      OneMoreTurn(turns, i, n);
      OneMoreHeard(turns, i);
      match turns[i] {
        case Quiet => stalled := true;
        case Concludes(isError, text) =>
          sent := sent + [Result(isError, text, n)];
          res := Some(turns[i]);
        case Says(id) =>
          sent := sent + [Told(id, n)];
          shown := shown + [Told(id, n)];
      }
    }
    assert turns[..|turns|] == turns;
  }

  lemma OneMoreTurn(turns: seq<Turn>, i: nat, n: nat)
    requires i < |turns|
    ensures Sent(turns[..i + 1], n) == Sent(turns[..i], n) + Tagged(turns[i], n)
    ensures Shown(Sent(turns[..i + 1], n)) == Shown(Sent(turns[..i], n)) + if turns[i].Says?
        then [Told(turns[i].id, n)] else []
  {
    assert turns[..i + 1][..i] == turns[..i];
    ShownAppend(Sent(turns[..i], n), Tagged(turns[i], n));
    ShownOne(turns[i], n);
  }

  lemma OneMoreHeard(turns: seq<Turn>, i: nat)
    requires i < |turns|
    ensures Concluded(turns[..i + 1]) == if turns[i].Concludes? then Some(turns[i]) else Concluded(turns[..i])
    ensures Stalls(turns[..i + 1]) <==> Stalls(turns[..i]) || turns[i].Quiet?
  {
    assert turns[..i + 1][..i] == turns[..i];
    assert turns[..i + 1] == turns[..i] + [turns[i]];
  }

  lemma ShownOne(t: Turn, n: nat)
    ensures Shown(Tagged(t, n)) == if t.Says? then [Told(t.id, n)] else []
  {
    var e := Tagged(t, n);
    if e != [] { assert e[..0] == []; }
  }

  /** One attempt on an agent. */
  method TryAgent(w: World, n: nat, before: Run, agent: string) returns (s: Run)
    ensures s == Tried(w, n, before, agent)
  {
    var shown, sent, res, stalled := Follow(w.plays(n), n);
    var ok := res.Some? && !res.value.isError && !stalled;
    var final :=
      if stalled then Result(true, WENT_QUIET, n)
      else if res.Some? then Result(res.value.isError, res.value.text, n)
      else Result(true, NO_RESULT, n);
    s := Run(before.attempts + [Attempt(agent, ok, stalled)], before.out + shown, before.stored + sent, Some(final));
  }

  /** One turn of the attempt loop. */
  method Round(w: World, n: nat, before: Run) returns (s: Run, over: bool)
    requires n >= 1 && Within(w, n)
    ensures From(w, n, before) == if over then s else From(w, n + 1, s)
  {
    var pick := PickFor(w, n, Agents(before.attempts));
    if pick.Refused? { return Yielded(before.(final := Some(Result(true, pick.text, 0)))), true; }
    if pick.NoAgent? {
      var told := before.(out := before.out + [Error(pick.text)]);
      return Yielded(if n == 1 then told.(final := Some(Result(true, pick.text, 0))) else told), true;
    }
    s := TryAgent(w, n, before, pick.name);
    over := s.attempts[|s.attempts| - 1].ok || !w.handoff || w.aborted(n) || n as real >= w.maxAttempts;
    s := if over then Yielded(s) else HandedOn(s, pick.name, n);
  }

  /** The whole run. */
  method RunTask(w: World) returns (s: Run)
    ensures s == RunOf(w)
  {
    s := NEW;
    var n, over := 1, false;
    while !over && n as real <= MaxR(1.0, w.maxAttempts)
      invariant n >= 1 && RunOf(w) == if over then s else From(w, n, s)
      decreases !over, Limit(w) - n
    {
      s, over := Round(w, n, s);
      n := n + 1;
    }
  }

  // ---------------------------------------------------------------- what every run keeps

  predicate Whole(x: real) { x == x.Floor as real }

  /** Before an attempt: one earlier attempt each, all failed, no result yielded yet. */
  ghost predicate Open(w: World, n: nat, s: Run) {
    && n >= 1 && |s.attempts| == n - 1 && (n > 1 ==> w.handoff && s.final.Some?)
    && (forall i :: 0 <= i < |s.attempts| ==> FollowedBy(w, s.attempts[i], i + 1))
    && (s.final.Some? ==> s.final.value.Result? && s.final.value.isError)
    && s.out == Shown(s.stored)
  }

  /** The attempt failed and another one may follow. */
  predicate Continued(w: World, n: nat) {
    w.handoff && !w.aborted(n) && (n as real) < w.maxAttempts && !Succeeds(w.plays(n))
  }

  /** Attempt n failed, and was one that may be followed. */
  predicate FollowedBy(w: World, a: Attempt, n: nat) { !a.ok && Continued(w, n) }

  /** Yielded is what was stored without the results, perhaps a refusal, and the one result last. */
  ghost predicate EndsWell(s: Run) {
    && s.final.Some? && s.final.value.Result?
    && (s.out == Shown(s.stored) + [s.final.value]
      || exists text :: s.out == Shown(s.stored) + [Error(text)] + [s.final.value])
    && (s.final.value.isError <==> s.attempts == [] || !s.attempts[|s.attempts| - 1].ok)
  }

  /** Every attempt but the last failed, and was one that may be followed; a stalled one never counts as ok. */
  ghost predicate Orderly(w: World, s: Run) {
    && (forall i :: 0 <= i < |s.attempts| - 1 ==> FollowedBy(w, s.attempts[i], i + 1))
    && (forall i :: 0 <= i < |s.attempts| ==> s.attempts[i].stalled ==> !s.attempts[i].ok)
  }

  ghost predicate NeverStalledOk(s: Run) {
    forall i :: 0 <= i < |s.attempts| ==> s.attempts[i].stalled ==> !s.attempts[i].ok
  }

  lemma TriedKeeps(w: World, n: nat, s: Run, agent: string)
    requires Open(w, n, s) && NeverStalledOk(s)
    ensures var t := Tried(w, n, s, agent);
            && t.out == Shown(t.stored) && NeverStalledOk(t) && |t.attempts| == n
            && t.attempts[n - 1] == Attempt(agent, Succeeds(w.plays(n)), Stalls(w.plays(n)))
            && (forall i :: 0 <= i < n - 1 ==> t.attempts[i] == s.attempts[i])
            && t.final.Some? && t.final.value.Result? && (t.final.value.isError <==> !Succeeds(w.plays(n)))
  {
    ShownAppend(s.stored, Sent(w.plays(n), n));
  }

  lemma HandedOnOpen(w: World, n: nat, s: Run, t: Run, agent: string)
    requires Open(w, n, s) && NeverStalledOk(s) && t == Tried(w, n, s, agent) && !Ends(w, n)
    ensures Open(w, n + 1, HandedOn(t, agent, n)) && NeverStalledOk(HandedOn(t, agent, n))
  {
    TriedKeeps(w, n, s, agent);
    ShownAppend(t.stored, [Handoff(agent, n + 1)]);
    assert [Handoff(agent, n + 1)][..0] == [];
    assert Shown([Handoff(agent, n + 1)]) == [Handoff(agent, n + 1)];
  }

  /** A whole limit leaves no gap between the last attempt that may be made and the one that must end the run. */
  lemma WholeLimit(w: World, n: nat)
    requires w.maxAttempts <= 1.0 || Whole(w.maxAttempts)
    requires n >= 1 && Within(w, n) && (n as real) < w.maxAttempts
    ensures Within(w, n + 1)
  {
    assert n < w.maxAttempts.Floor;
  }

  lemma {:induction false} FromEndsWell(w: World, n: nat, s: Run, r: Run)
    requires Open(w, n, s) && NeverStalledOk(s) && Within(w, n) && r == From(w, n, s)
    requires w.maxAttempts <= 1.0 || Whole(w.maxAttempts)
    ensures EndsWell(r)
    decreases Limit(w) - n
  {
    var p := PickFor(w, n, Agents(s.attempts));
    if p.Agent? {
      TriedKeeps(w, n, s, p.name);
      if !Ends(w, n) {
        HandedOnOpen(w, n, s, Tried(w, n, s, p.name), p.name);
        WholeLimit(w, n);
        FromEndsWell(w, n + 1, HandedOn(Tried(w, n, s, p.name), p.name, n), r);
      }
    } else if n > 1 {
      assert !s.attempts[n - 2].ok;
    }
  }

  lemma NewOpen(w: World)
    ensures Open(w, 1, NEW) && NeverStalledOk(NEW) && Within(w, 1)
  {
  }

  /**
   Whatever the agents, the routing, stalls and aborts do: the run yields exactly one result, and yields it last; before
   it stands everything that was stored but the agents' own results. The result is good exactly when the last attempt
   was.
   */
  lemma OneResultLast(w: World)
    requires w.maxAttempts <= 1.0 || Whole(w.maxAttempts)
    ensures var s := RunOf(w);
            && EndsWell(s) && s.out != [] && s.out[|s.out| - 1].Result?
            && forall i :: 0 <= i < |s.out| - 1 ==> !s.out[i].Result?
  {
    NewOpen(w);
    FromEndsWell(w, 1, NEW, RunOf(w));
    ShownHasNoResult(RunOf(w).stored);
  }

  /** One turn of the loop, and what is left to be done after it. */
  lemma FromOnce(w: World, n: nat, s: Run, agent: string)
    requires Within(w, n) && PickFor(w, n, Agents(s.attempts)) == Agent(agent)
    ensures From(w, n, s) == if Ends(w, n) then Yielded(Tried(w, n, s, agent))
        else From(w, n + 1, HandedOn(Tried(w, n, s, agent), agent, n))
  {
  }

  lemma FromOver(w: World, n: nat, s: Run)
    requires !Within(w, n) || !PickFor(w, n, Agents(s.attempts)).Agent?
    ensures From(w, n, s).attempts == s.attempts
  {
  }

  lemma TriedOrderly(w: World, n: nat, s: Run, agent: string)
    requires Open(w, n, s) && NeverStalledOk(s)
    ensures Orderly(w, Yielded(Tried(w, n, s, agent))) && s.attempts <= Tried(w, n, s, agent).attempts
  {
    TriedKeeps(w, n, s, agent);
  }

  lemma OpenOrderly(w: World, n: nat, s: Run, r: Run)
    requires Open(w, n, s) && NeverStalledOk(s) && r.attempts == s.attempts
    ensures Orderly(w, r)
  {
  }

  /** What a run makes of the attempts before it. */
  ghost predicate Continues(w: World, n: nat, s: Run, r: Run) {
    Orderly(w, r) && s.attempts <= r.attempts && |r.attempts| <= Max(n - 1, Limit(w))
  }

  lemma EndsOrderly(w: World, n: nat, s: Run, agent: string, r: Run)
    requires Open(w, n, s) && NeverStalledOk(s) && Within(w, n) && r == Yielded(Tried(w, n, s, agent))
    ensures Continues(w, n, s, r)
  {
    TriedOrderly(w, n, s, agent);
  }

  lemma ContinuesOn(w: World, n: nat, s: Run, h: Run, r: Run)
    requires Within(w, n) && s.attempts <= h.attempts && Continues(w, n + 1, h, r)
    ensures Continues(w, n, s, r)
  {
  }

  lemma {:induction false} NextOrderly(w: World, n: nat, s: Run, agent: string, h: Run, r: Run)
    requires Open(w, n, s) && NeverStalledOk(s) && Within(w, n) && !Ends(w, n)
    requires h == HandedOn(Tried(w, n, s, agent), agent, n) && r == From(w, n + 1, h)
    ensures Continues(w, n, s, r)
    decreases Limit(w) - n, 0
  {
    HandedOnOpen(w, n, s, Tried(w, n, s, agent), agent);
    FromOrderly(w, n + 1, h, r);
    ContinuesOn(w, n, s, h, r);
  }

  lemma {:induction false} FromOrderly(w: World, n: nat, s: Run, r: Run)
    requires Open(w, n, s) && NeverStalledOk(s) && r == From(w, n, s)
    ensures Continues(w, n, s, r)
    decreases Limit(w) - n, 1
  {
    var p := PickFor(w, n, Agents(s.attempts));
    if !Within(w, n) || !p.Agent? {
      FromOver(w, n, s);
      OpenOrderly(w, n, s, r);
    } else {
      FromOnce(w, n, s, p.name);
      if Ends(w, n) {
        EndsOrderly(w, n, s, p.name, r);
      } else {
        NextOrderly(w, n, s, p.name, HandedOn(Tried(w, n, s, p.name), p.name, n), r);
      }
    }
  }

  /**
   At most max(1, maxAttempts) attempts; the task is handed on only after one that failed; a stalled one is never ok.
   */
  lemma AttemptsOrderly(w: World)
    ensures |RunOf(w).attempts| as real <= MaxR(1.0, w.maxAttempts) && Orderly(w, RunOf(w))
  {
    NewOpen(w);
    FromOrderly(w, 1, NEW, RunOf(w));
  }

  /** Placement never selects an agent that it was told is down. */
  ghost predicate RoutesElsewhere(w: World) {
    forall n, tried :: w.route(n, tried).Some? ==> w.route(n, tried).value !in tried
  }

  ghost predicate Distinct(attempts: seq<Attempt>) {
    forall i, j :: 0 <= i < j < |attempts| ==> attempts[i].agent != attempts[j].agent
  }

  lemma OneMoreDistinct(attempts: seq<Attempt>, a: Attempt)
    requires Distinct(attempts) && (attempts != [] ==> a.agent !in Agents(attempts))
    ensures Distinct(attempts + [a])
  {
    assert forall i :: 0 <= i < |attempts| ==> attempts[i].agent == Agents(attempts)[i];
  }

  lemma TriedDistinct(w: World, n: nat, s: Run, agent: string)
    requires Distinct(s.attempts) && (s.attempts != [] ==> agent !in Agents(s.attempts))
    ensures Distinct(Tried(w, n, s, agent).attempts) && Tried(w, n, s, agent).attempts != []
  {
    OneMoreDistinct(s.attempts, Attempt(agent, Succeeds(w.plays(n)), Stalls(w.plays(n))));
  }

  lemma PickedElsewhere(w: World, n: nat, attempts: seq<Attempt>, agent: string)
    requires RoutesElsewhere(w) && (n == 1 ==> attempts == []) && PickFor(w, n, Agents(attempts)) == Agent(agent)
    ensures attempts != [] ==> agent !in Agents(attempts)
  {
  }

  /** Between two attempts: no agent was asked twice so far. */
  ghost predicate Fair(w: World, n: nat, s: Run) { n >= 1 && Distinct(s.attempts) && (n == 1 ==> s.attempts == []) }

  lemma StaysFair(w: World, n: nat, s: Run, agent: string)
    requires RoutesElsewhere(w) && Fair(w, n, s) && PickFor(w, n, Agents(s.attempts)) == Agent(agent)
    ensures Fair(w, n + 1, HandedOn(Tried(w, n, s, agent), agent, n))
    ensures Distinct(Yielded(Tried(w, n, s, agent)).attempts)
  {
    PickedElsewhere(w, n, s.attempts, agent);
    TriedDistinct(w, n, s, agent);
  }

  lemma {:induction false} FromDistinct(w: World, n: nat, s: Run, r: Run)
    requires RoutesElsewhere(w) && Fair(w, n, s) && r == From(w, n, s)
    ensures Distinct(r.attempts)
    decreases Limit(w) - n, 1
  {
    var p := PickFor(w, n, Agents(s.attempts));
    if !Within(w, n) || !p.Agent? {
      FromOver(w, n, s);
    } else {
      FromOnce(w, n, s, p.name);
      StaysFair(w, n, s, p.name);
      if !Ends(w, n) { NextDistinct(w, n, HandedOn(Tried(w, n, s, p.name), p.name, n), r); }
    }
  }

  lemma {:induction false} NextDistinct(w: World, n: nat, h: Run, r: Run)
    requires RoutesElsewhere(w) && Fair(w, n + 1, h) && Within(w, n) && r == From(w, n + 1, h)
    ensures Distinct(r.attempts)
    decreases Limit(w) - n, 0
  {
    FromDistinct(w, n + 1, h, r);
  }

  /** No agent is asked twice in a run. */
  lemma AgentsDistinct(w: World)
    requires RoutesElsewhere(w)
    ensures Distinct(RunOf(w).attempts)
  {
    FromDistinct(w, 1, NEW, RunOf(w));
  }

  // ---------------------------------------------------------------- which agent, and what its result says

  /** Turn k is the last with which an agent concluded. */
  ghost predicate LastConcludes(turns: seq<Turn>, k: nat) {
    k < |turns| && turns[k].Concludes? && forall j :: k < j < |turns| ==> !turns[j].Concludes?
  }

  /** What an attempt comes to: it went quiet, or it is as the agent concluded last, or it ended without a result. */
  ghost predicate ComesTo(turns: seq<Turn>, n: nat, e: Event) {
    if Quiet in turns then e == Result(true, WENT_QUIET, n)
    else
      && (forall k: nat :: LastConcludes(turns, k) ==> e == Result(turns[k].isError, turns[k].text, n))
      && ((forall k: nat :: !LastConcludes(turns, k)) ==> e == Result(true, NO_RESULT, n))
  }

  lemma {:induction false} ConcludedAt(turns: seq<Turn>)
    ensures if Concluded(turns).None? then forall k: nat :: !LastConcludes(turns, k)
            else exists k: nat :: LastConcludes(turns, k) && turns[k] == Concluded(turns).value
  {
    if turns != [] {
      var n := |turns| - 1;
      if turns[n].Concludes? {
        assert LastConcludes(turns, n);
      } else {
        ConcludedAt(turns[..n]);
        forall k: nat ensures LastConcludes(turns, k) <==> LastConcludes(turns[..n], k) { }
      }
    }
  }

  lemma ResultComes(turns: seq<Turn>, n: nat)
    ensures ComesTo(turns, n, ResultOf(turns, n)) && (Succeeds(turns) <==> !ResultOf(turns, n).isError)
  {
    ConcludedAt(turns);
  }

  /** The agent the caller asked for makes the first attempt, the others are placed, knowing who was tried. */
  ghost predicate AgentRight(w: World, attempts: seq<Attempt>, i: nat)
    requires i < |attempts|
  {
    if i == 0 && w.asked.Ready? then attempts[i].agent == w.asked.agent
    else w.route(i + 1, Agents(attempts[..i])) == Some(attempts[i].agent)
  }

  /** Everything that was stored: what each agent sent, in order, and a note between two attempts. */
  function Story(w: World, attempts: seq<Attempt>): seq<Event>
    decreases |attempts|, 0
  {
    if attempts == [] then []
    else Before(w, attempts[..|attempts| - 1]) + Sent(w.plays(|attempts|), |attempts|)
  }

  function Before(w: World, attempts: seq<Attempt>): seq<Event>
    decreases |attempts|, 1
  {
    if attempts == [] then []
    else Story(w, attempts) + [Handoff(attempts[|attempts| - 1].agent, |attempts| + 1)]
  }

  /** What is known of the attempts made so far. */
  ghost predicate Known(w: World, attempts: seq<Attempt>, final: Option<Event>) {
    && (forall i: nat :: i < |attempts| ==> AgentRight(w, attempts, i))
    && (attempts != [] ==> final.Some? && ComesTo(w.plays(|attempts|), |attempts|, final.value))
  }

  /** No attempt was made, because the agent that was asked for cannot take the run, or none can. */
  ghost predicate Refusal(w: World, final: Option<Event>) {
    && !w.asked.Ready? && final.Some? && final.value.Result? && final.value.isError
    && (if w.asked.Unable? then final.value.text == w.asked.text else w.route(1, []).None?)
  }

  lemma TriedKnown(w: World, n: nat, s: Run, agent: string, t: Run)
    requires Known(w, s.attempts, s.final) && |s.attempts| == n - 1 && n >= 1 && s.stored == Before(w, s.attempts)
    requires PickFor(w, n, Agents(s.attempts)) == Agent(agent) && t == Tried(w, n, s, agent)
    ensures Known(w, t.attempts, t.final) && t.stored == Story(w, t.attempts)
  {
    ResultComes(w.plays(n), n);
    assert t.attempts[..n - 1] == s.attempts;
    forall i: nat | i < |t.attempts| ensures AgentRight(w, t.attempts, i) {
      if i < n - 1 { assert AgentRight(w, s.attempts, i) && t.attempts[..i] == s.attempts[..i]; }
    }
  }

  lemma {:induction false} FromKnown(w: World, n: nat, s: Run, r: Run)
    requires Known(w, s.attempts, s.final) && |s.attempts| == n - 1 && n >= 1 && s.stored == Before(w, s.attempts)
    requires r == From(w, n, s) && (n == 1 ==> Within(w, n))
    ensures Known(w, r.attempts, r.final) && (r.attempts == [] ==> Refusal(w, r.final))
    ensures r.stored in {Story(w, r.attempts), Before(w, r.attempts)}
    decreases Limit(w) - n
  {
    var p := PickFor(w, n, Agents(s.attempts));
    if Within(w, n) && p.Agent? {
      var t := Tried(w, n, s, p.name);
      FromOnce(w, n, s, p.name);
      TriedKnown(w, n, s, p.name, t);
      if Ends(w, n) {
        YieldedSame(t);
      } else {
        FromKnown(w, n + 1, HandedOn(t, p.name, n), r);
      }
    } else {
      OverKnown(w, n, s, r);
    }
  }

  lemma YieldedSame(s: Run)
    ensures Yielded(s).attempts == s.attempts && Yielded(s).final == s.final && Yielded(s).stored == s.stored
  {
  }

  lemma OverKnown(w: World, n: nat, s: Run, r: Run)
    requires n >= 1 && |s.attempts| == n - 1 && r == From(w, n, s) && (n == 1 ==> Within(w, n))
    requires !Within(w, n) || !PickFor(w, n, Agents(s.attempts)).Agent?
    ensures r.attempts == s.attempts && r.stored == s.stored && (n > 1 ==> r.final == s.final)
    ensures n == 1 ==> Refusal(w, r.final)
  {
    if n == 1 { assert Agents(s.attempts) == []; }
  }

  /**
   The first attempt is made by the agent that was asked for, if one was; each later one by the agent placed for it;
   what
   is stored is what they sent, with a note between; and the result says what the last of them came to: that it went
   quiet, what it concluded last, or that it ended without a result.
   */
  lemma ResultSaysWhat(w: World)
    ensures Known(w, RunOf(w).attempts, RunOf(w).final)
    ensures RunOf(w).attempts == [] ==> Refusal(w, RunOf(w).final)
    ensures RunOf(w).stored in {Story(w, RunOf(w).attempts), Before(w, RunOf(w).attempts)}
  {
    NewOpen(w);
    FromKnown(w, 1, NEW, RunOf(w));
  }

  /** Another attempt was to be made, by whoever is placed, and nobody could be. */
  ghost predicate GaveUp(w: World, s: Run) {
    var n := |s.attempts| + 1;
    && (if n == 1 then w.asked.Nobody? else Continued(w, n - 1))
    && w.route(n, Agents(s.attempts)).None?
  }

  function NobodyText(attempts: seq<Attempt>): string {
    if attempts == [] then "no available agent can take this task" else "no other agent is available to take over"
  }

  /** What the run yields: all that was stored but results, an error when nobody could be placed, and the result. */
  ghost predicate Tells(w: World, s: Run) {
    && s.final.Some?
    && (GaveUp(w, s) ==> s.out == Shown(s.stored) + [Error(NobodyText(s.attempts))] + [s.final.value])
    && (!GaveUp(w, s) ==> s.out == Shown(s.stored) + [s.final.value])
  }

  lemma EndTells(w: World, n: nat, s: Run, agent: string, r: Run)
    requires Open(w, n, s) && NeverStalledOk(s) && Ends(w, n) && r == Yielded(Tried(w, n, s, agent))
    ensures Tells(w, r)
  {
    TriedKeeps(w, n, s, agent);
  }

  lemma NobodyTells(w: World, n: nat, s: Run, r: Run)
    requires Open(w, n, s) && Within(w, n) && r == From(w, n, s) && !PickFor(w, n, Agents(s.attempts)).Agent?
    requires n > 1 ==> Continued(w, n - 1)
    ensures Tells(w, r)
  {
    if w.asked.Unable? && n == 1 {
      assert !GaveUp(w, r);
    } else {
      assert r.out == Shown(r.stored) + [Error(NobodyText(s.attempts))] + [r.final.value];
    }
  }

  lemma {:induction false} FromTells(w: World, n: nat, s: Run, r: Run)
    requires Open(w, n, s) && NeverStalledOk(s) && Within(w, n) && (n > 1 ==> Continued(w, n - 1))
    requires (w.maxAttempts <= 1.0 || Whole(w.maxAttempts)) && r == From(w, n, s)
    ensures Tells(w, r)
    decreases Limit(w) - n, 1
  {
    var p := PickFor(w, n, Agents(s.attempts));
    if !p.Agent? {
      NobodyTells(w, n, s, r);
    } else {
      FromOnce(w, n, s, p.name);
      if Ends(w, n) {
        EndTells(w, n, s, p.name, r);
      } else {
        NextTells(w, n, s, p.name, HandedOn(Tried(w, n, s, p.name), p.name, n), r);
      }
    }
  }

  lemma {:induction false} NextTells(w: World, n: nat, s: Run, agent: string, h: Run, r: Run)
    requires Open(w, n, s) && NeverStalledOk(s) && Within(w, n) && !Ends(w, n)
    requires h == HandedOn(Tried(w, n, s, agent), agent, n) && r == From(w, n + 1, h)
    requires w.maxAttempts <= 1.0 || Whole(w.maxAttempts)
    ensures Tells(w, r)
    decreases Limit(w) - n, 0
  {
    HandedOnOpen(w, n, s, Tried(w, n, s, agent), agent);
    WholeLimit(w, n);
    FromTells(w, n + 1, h, r);
  }

  /** An error is told exactly when the task was to be taken by somebody and nobody could be placed. */
  lemma ErrorIffNobody(w: World)
    requires w.maxAttempts <= 1.0 || Whole(w.maxAttempts)
    ensures Tells(w, RunOf(w))
  {
    NewOpen(w);
    FromTells(w, 1, NEW, RunOf(w));
  }

  // ---------------------------------------------------------------- a limit that is not whole

  /** A name longer than all of some names. */
  function Fresh(names: seq<string>): (r: string)
    ensures forall x :: x in names ==> |x| < |r|
  {
    if names == [] then "x"
    else
      var r := Fresh(names[..|names| - 1]);
      r + names[|names| - 1]
  }

  /** A world in which every agent fails and there is always another one. */
  function Hopeless(limit: real): World {
    World(Nobody, (n, tried) => Some(Fresh(tried)), n => [], n => false, true, limit)
  }

  lemma {:induction false} HopelessGoesOn(limit: real, n: nat, s: Run)
    requires limit > 1.0 && !Whole(limit) && n >= 1 && forall e :: e in s.out ==> !e.Result?
    ensures forall e :: e in From(Hopeless(limit), n, s).out ==> !e.Result?
    decreases Limit(Hopeless(limit)) - n
  {
    var w := Hopeless(limit);
    if Within(w, n) {
      var a := Fresh(Agents(s.attempts));
      assert PickFor(w, n, Agents(s.attempts)) == Agent(a);
      assert Sent(w.plays(n), n) == [];
      assert !Ends(w, n);
      HopelessGoesOn(limit, n + 1, HandedOn(Tried(w, n, s, a), a, n));
    }
  }

  /**
   With any other limit a run can end without a result: the guarantee holds for all worlds exactly for whole limits and
   those up to one.
   */
  lemma OneResultIffWhole(limit: real)
    ensures (limit <= 1.0 || Whole(limit))
       <==> forall w: World ::
           w.maxAttempts == limit && RoutesElsewhere(w) ==> exists e :: e in RunOf(w).out && e.Result?
  {
    if limit <= 1.0 || Whole(limit) {
      forall w: World | w.maxAttempts == limit && RoutesElsewhere(w) ensures exists e ::
          e in RunOf(w).out && e.Result? {
        OneResultLast(w);
        assert RunOf(w).out[|RunOf(w).out| - 1] in RunOf(w).out;
      }
    } else {
      var w := Hopeless(limit);
      HopelessGoesOn(limit, 1, NEW);
      forall n, tried ensures w.route(n, tried).Some? ==> w.route(n, tried).value !in tried { }
    }
  }
}
