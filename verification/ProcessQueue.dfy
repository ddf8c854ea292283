/**
 harness/process.js `spawnAgent`: the queue between an agent's process and the run, with its hand-made wake-ups, and
 the race of harness/index.js between the next event and the stall timer. Each action runs without a wait; any
 interleaving of them is a run.
 */
module ProcessQueue {
  import opened Prelude

  datatype Event = Result(id: int) | Other(id: int)

  /** The queue's iterator: not asked, waiting for a wake-up, woken but not yet running again, or at its end. */
  datatype Gen = Idle | Parked | Woken | Ended

  /** The `next()` of the run: none in flight, in flight, or answered (None is the end) but not yet looked at. */
  datatype Pending = NoCall | InFlight | Answered(e: Option<Event>)

  /**
   `wake` says that a wake-up is registered; `kept` is what the tally and the store got, `shown` what was yielded on;
   `emitted` and `early` record all events, and how many came before the end.
   */
  datatype State = State(queue: seq<Event>, finished: bool, wake: bool, gen: Gen, pending: Pending, stalled: bool,
        over: bool,
                         kept: seq<Event>, shown: seq<Event>, emitted: seq<Event>, early: nat)

  datatype Action = Emit(e: Event) | Finish | Resume | Call | Look | TimerWins

  const START := State([], false, false, Idle, NoCall, false, false, [], [], [], 0)

  // ---------------------------------------------------------------- the steps

  /** A registered wake-up fires once. */
  function Wake(s: State): State { if s.wake then s.(wake := false, gen := Woken) else s }

  /** The iterator's loop up to its next yield, its end or its wait. */
  function Advance(s: State): State {
    if s.queue != [] then s.(queue := s.queue[1..], gen := Idle, pending := Answered(Some(s.queue[0])))
    else if s.finished then s.(gen := Ended, pending := Answered(None))
    else s.(wake := true, gen := Parked)
  }

  /** What may happen: the consumer's steps are taken only where its code stands. */
  predicate Enabled(s: State, a: Action) {
    match a
    case Emit(_) => true
    case Finish => !s.finished
    case Resume => s.gen.Woken?
    case Call => !s.over && s.pending.NoCall?
    case Look => !s.over && s.pending.Answered?
    case TimerWins => !s.over && !s.pending.NoCall?
  }

  function Step(s: State, a: Action): State
    requires Enabled(s, a)
  {
    match a
    case Emit(e) => Wake(s.(queue := s.queue + [e], emitted := s.emitted + [e],
                             early := if s.finished then s.early else s.early + 1))
    case Finish => Wake(s.(finished := true))
    case Resume => Advance(s)
    case Call => Advance(s.(pending := InFlight))
    case Look =>
      if s.pending.e.None? then s.(pending := NoCall, over := true)
      else
        var e := s.pending.e.value;
        s.(pending := NoCall, kept := s.kept + [e], shown := if e.Result? then s.shown else s.shown + [e])
    case TimerWins => s.(stalled := true)      // the next() in flight is kept for the next race
  }

  // ---------------------------------------------------------------- the queue itself

  class Pipe {
    var queue: seq<Event>
    var finished: bool
    var wake: bool
    var gen: Gen
    var pending: Pending
    var stalled: bool
    var over: bool
    var kept: seq<Event>
    var shown: seq<Event>
    ghost var emitted: seq<Event>
    ghost var early: nat

    ghost function View(): State
      reads this
    {
      State(queue, finished, wake, gen, pending, stalled, over, kept, shown, emitted, early)
    }

    constructor ()
      ensures View() == START
    {
      queue, finished, wake, gen, pending, stalled, over := [], false, false, Idle, NoCall, false, false;
      kept, shown, emitted, early := [], [], [], 0;
    }

    method WakeUp()
      modifies `wake, `gen
      ensures View() == Wake(old(View()))
    {
      if wake { wake, gen := false, Woken; }
    }

    method Emit(e: Event)
      modifies `queue, `wake, `gen, `emitted, `early
      ensures View() == Step(old(View()), Action.Emit(e))
    {
      queue, emitted, early := queue + [e], emitted + [e], if finished then early else early + 1;
      WakeUp();
    }

    method Finish()
      requires !finished
      modifies `finished, `wake, `gen
      ensures View() == Step(old(View()), Action.Finish)
    {
      finished := true;
      WakeUp();
    }

    method GoOn()
      modifies `queue, `wake, `gen, `pending
      ensures View() == Advance(old(View()))
    {
      if |queue| > 0 {
        pending, gen := Answered(Some(queue[0])), Idle;
        queue := queue[1..];
      } else if finished {
        gen, pending := Ended, Answered(None);
      } else {
        wake, gen := true, Parked;
      }
    }

    method Resume()
      requires gen.Woken?
      modifies `queue, `wake, `gen, `pending
      ensures View() == Step(old(View()), Action.Resume)
    {
      GoOn();
    }

    method Call()
      requires Enabled(View(), Action.Call)
      modifies `queue, `wake, `gen, `pending
      ensures View() == Step(old(View()), Action.Call)
    {
      pending := InFlight;
      GoOn();
    }

    method Look()
      requires Enabled(View(), Action.Look)
      modifies `pending, `over, `kept, `shown
      ensures View() == Step(old(View()), Action.Look)
    {
      var answer := pending.e;
      pending := NoCall;
      if answer.None? { over := true; return; }
      kept := kept + [answer.value];
      if !answer.value.Result? { shown := shown + [answer.value]; }
    }

    method TimerWins()
      requires Enabled(View(), Action.TimerWins)
      modifies `stalled
      ensures View() == Step(old(View()), Action.TimerWins)
    {
      stalled := true;
    }
  }

  // ---------------------------------------------------------------- what every interleaving keeps

  function Others(events: seq<Event>): seq<Event> {
    if events == [] then []
    else Others(events[..|events| - 1]) + if events[|events| - 1].Result? then [] else [events[|events| - 1]]
  }

  /** The event that was handed out and not looked at yet. */
  function InHand(s: State): seq<Event> { if s.pending.Answered? && s.pending.e.Some? then [s.pending.e.value] else [] }

  predicate Ending(s: State) { s.pending == Answered(None) || s.over }

  ghost predicate Inv(s: State) {
    // the consumer stands where its code is
    && (s.wake <==> s.gen.Parked?)
    && (s.gen.Parked? || s.gen.Woken? ==> s.pending.InFlight?)
    && (s.pending.InFlight? ==> s.gen.Parked? || s.gen.Woken?)
    && (s.gen.Ended? <==> Ending(s))
    && (s.over ==> s.pending.NoCall?)
    // it never waits while an event or the end is there
    && (s.gen.Parked? ==> s.queue == [] && !s.finished)
    // nothing is lost, doubled or reordered
    && s.kept + InHand(s) + s.queue == s.emitted
    && s.shown == Others(s.kept)
    && s.early <= |s.emitted| && (!s.finished ==> s.early == |s.emitted|)
    && (Ending(s) ==> s.finished && s.early <= |s.kept|)
  }

  lemma OthersMore(events: seq<Event>, e: Event)
    ensures Others(events + [e]) == Others(events) + if e.Result? then [] else [e]
  {
    assert (events + [e])[..|events|] == events;
  }

  lemma StepKeeps(s: State, a: Action)
    requires Inv(s) && Enabled(s, a)
    ensures Inv(Step(s, a))
  {
    match a
    case Emit(e) =>
      assert s.kept + InHand(s) + (s.queue + [e]) == s.kept + InHand(s) + s.queue + [e];
    case Finish =>
    case Resume => AdvanceKeeps(s);
    case Call => AdvanceKeeps(s.(pending := InFlight, gen := Woken));
    case Look =>
      if s.pending.e.Some? {
        OthersMore(s.kept, s.pending.e.value);
        assert s.kept + [s.pending.e.value] + [] == s.kept + [s.pending.e.value];
      } else {
        assert s.kept + [] == s.kept;
      }
    case TimerWins =>
  }

  lemma AdvanceKeeps(s: State)
    requires Inv(s) && s.gen.Woken?
    ensures Inv(Advance(s))
  {
    if s.queue != [] {
      assert s.queue == [s.queue[0]] + s.queue[1..];
      assert s.kept + [s.queue[0]] + s.queue[1..] == s.kept + [] + s.queue;
    }
  }

  ghost predicate Runs(s: State, actions: seq<Action>)
    decreases |actions|
  {
    actions == [] || (Enabled(s, actions[0]) && Runs(Step(s, actions[0]), actions[1..]))
  }

  function After(s: State, actions: seq<Action>): State
    requires Runs(s, actions)
    decreases |actions|
  {
    if actions == [] then s else After(Step(s, actions[0]), actions[1..])
  }

  lemma {:induction false} RunKeeps(s: State, actions: seq<Action>)
    requires Inv(s) && Runs(s, actions)
    ensures Inv(After(s, actions))
    decreases |actions|
  {
    if actions != [] {
      StepKeeps(s, actions[0]);
      RunKeeps(Step(s, actions[0]), actions[1..]);
    }
  }

  /**
   Whatever the interleaving of events, timer wins and the end of the process: the tally and the store hold a prefix of
   what was emitted, in order and once each, all but results were yielded on; the consumer is parked only while there is
   nothing to take; and once it is over, every event emitted before the end is among them.
   */
  lemma NothingLost(actions: seq<Action>)
    requires Runs(START, actions)
    ensures var s := After(START, actions);
            && s.kept <= s.emitted && s.shown == Others(s.kept)
            && (s.gen.Parked? ==> s.queue == [] && !s.finished)
            && (s.over ==> s.early <= |s.kept|)
  {
    RunKeeps(START, actions);
    var s := After(START, actions);
    assert s.kept + InHand(s) + s.queue == s.kept + (InHand(s) + s.queue);
  }

  /** The run counts as stalled exactly when the timer once came before an answer. */
  lemma StalledIff(actions: seq<Action>)
    requires Runs(START, actions)
    ensures After(START, actions).stalled <==> TimerWins in actions
  {
    StalledFrom(START, actions);
  }

  lemma {:induction false} StalledFrom(s: State, actions: seq<Action>)
    requires Runs(s, actions)
    ensures After(s, actions).stalled <==> s.stalled || TimerWins in actions
    decreases |actions|
  {
    if actions != [] { StalledFrom(Step(s, actions[0]), actions[1..]); }
  }

  /** While something waits, the consumer can take its next step. */
  lemma NeverStuck(s: State)
    requires Inv(s) && !s.over && (s.queue != [] || s.finished || s.pending.Answered?)
    ensures Enabled(s, Resume) || Enabled(s, Call) || Enabled(s, Look)
  {
  }

  /** The consumer's next step, when it has one. */
  function Next(s: State): Action { if s.gen.Woken? then Resume else if s.pending.Answered? then Look else Call }

  function Rank(s: State): nat {
    if s.over then 0
    else 3 * |s.queue| + (if s.pending == Answered(None) then 1 else if s.pending.Answered? then 4
        else if s.pending.InFlight? then 2 else 3)
  }

  /** Left to itself after the end, the consumer takes everything that was emitted and stops. */
  lemma {:induction false} Drains(s: State) returns (actions: seq<Action>)
    requires Inv(s) && s.finished
    ensures Runs(s, actions) && After(s, actions).over && After(s, actions).emitted == s.emitted
    ensures After(s, actions).kept == if Ending(s) then s.kept else s.emitted
    decreases Rank(s)
  {
    if s.over {
      actions := [];
    } else {
      var a := Next(s);
      StepKeeps(s, a);
      var rest := Drains(Step(s, a));
      actions := [a] + rest;
      assert actions[1..] == rest;
    }
  }

  /** An event emitted after the consumer has ended is not seen by anyone. */
  lemma LateIsLost(e: Event)
    ensures var actions := [Finish, Call, Look, Emit(e)];
            Runs(START, actions) && After(START, actions).emitted == [e] && After(START, actions).kept == []
                && After(START, actions).over
  {
    var s1 := Step(START, Finish);
    var s2 := Step(s1, Call);
    var s3 := Step(s2, Look);
    var actions := [Finish, Call, Look, Emit(e)];
    assert actions[1..] == [Call, Look, Emit(e)] && actions[1..][1..] == [Look, Emit(e)]
        && actions[1..][1..][1..] == [Emit(e)]
        && actions[1..][1..][1..][1..] == [];
    assert After(s3, [Emit(e)]) == Step(s3, Emit(e));
    assert After(s2, [Look, Emit(e)]) == Step(s3, Emit(e));
    assert After(s1, [Call, Look, Emit(e)]) == Step(s3, Emit(e));
  }
}
