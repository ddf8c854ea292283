/**
 engine/chain.js `nextRunner`, `detect`, `chainEnd` and `step`: what happens to a task next, and what driving a chain
 with it comes to.
 */
module ChainStep {
  import opened Prelude
  import opened Chain
  import opened Annotate

  /** A runner as the owner configured it. */
  datatype Agent = Agent(enabled: bool, max: nat, model: string)

  /** What the caller knows: the configuration, the health and load of the runners and their model lists. */
  datatype Context = Context(subagents: map<string, Agent>, order: seq<string>, runners: set<string>,
        healthy: set<string>,
                             counts: map<string, nat>, models: map<string, seq<string>>, basic: bool)

  datatype Choice = Choice(runner: string, model: string)

  function CountOf(ctx: Context, k: string): nat { if k in ctx.counts then ctx.counts[k] else 0 }

  /** Phoenix Grove's allowance is tiny: it takes only light jobs. */
  predicate Usable(ctx: Context, k: string) {
    && (k == "pg" ==> ctx.basic) && k in ctx.runners && k in ctx.subagents && ctx.subagents[k].enabled
    && CountOf(ctx, k) < ctx.subagents[k].max && k in ctx.healthy
  }

  /** The first usable runner of a list that is not the one that failed. */
  function FirstUsable(ctx: Context, list: seq<string>, but: string): (r: Option<string>)
    ensures r.Some? ==> r.value in list && r.value != but && Usable(ctx, r.value)
    ensures r.None? ==> forall k :: k in list && k != but ==> !Usable(ctx, k)
  {
    if list == [] then None
    else if list[0] != but && Usable(ctx, list[0]) then Some(list[0])
    else FirstUsable(ctx, list[1..], but)
  }

  lemma {:induction false} FirstUsableIsFirst(ctx: Context, list: seq<string>, but: string, k: string)
    requires k in list && k != but && Usable(ctx, k)
    ensures FirstUsable(ctx, list, but).Some? && IndexOf(list, FirstUsable(ctx, list, but).value) <= IndexOf(list, k)
  {
    if list[0] == but || !Usable(ctx, list[0]) {
      assert list == [list[0]] + list[1..];
      FirstUsableIsFirst(ctx, list[1..], but, k);
    }
  }

  /** The models behind the one that was busy; without a model, those behind the first. */
  function OtherModel(list: seq<string>, model: string): (r: Option<string>)
    ensures r.Some? ==> r.value in list && r.value != "" && r.value != model
  {
    var cur := if model == "" then 0 else Max(IndexOf(list, model), 0);
    if cur + 1 > |list| then None else FirstOther(list[cur + 1..], model)
  }

  function FirstOther(list: seq<string>, model: string): (r: Option<string>)
    ensures r.Some? ==> r.value in list && r.value != "" && r.value != model
  {
    if list == [] then None
    else if model == "" || list[0] != model then (if list[0] == "" then None else Some(list[0]))
    else FirstOther(list[1..], model)
  }

  /** Where the search for another model begins: at the busy one, or at the first when it is not in the list. */
  function PlaceOf(list: seq<string>, model: string): nat {
    if model != "" && model in list then IndexOf(list, model) else 0
  }

  /** Place i holds the first model from a place on that is another one. */
  ghost predicate OtherFrom(list: seq<string>, model: string, from: nat, i: nat) {
    && from <= i < |list| && (model == "" || list[i] != model)
    && forall j :: from <= j < i ==> model != "" && list[j] == model
  }

  ghost predicate FirstBehind(list: seq<string>, model: string, i: nat) {
    OtherFrom(list, model, PlaceOf(list, model) + 1, i)
  }

  lemma {:induction false} FirstOtherAt(list: seq<string>, model: string, from: nat)
    requires from <= |list|
    ensures FirstOther(list[from..], model).Some? ==>
      exists i: nat :: OtherFrom(list, model, from, i) && list[i] == FirstOther(list[from..], model).value
    ensures FirstOther(list[from..], model).None? ==> forall i: nat :: OtherFrom(list, model, from, i) ==> list[i] == ""
    decreases |list| - from
  {
    if from < |list| {
      assert list[from..][0] == list[from] && list[from..][1..] == list[from + 1..];
      FirstOtherAt(list, model, from + 1);
      if model != "" && list[from] == model {
        forall i: nat ensures OtherFrom(list, model, from, i) <==> OtherFrom(list, model, from + 1, i) { }
      } else {
        assert OtherFrom(list, model, from, from);
      }
    }
  }

  /**
   After a busy model the next one of the list that is another is tried, and none only when there is none behind it.
   */
  lemma OtherModelIff(list: seq<string>, model: string, m: string)
    ensures OtherModel(list, model) == Some(m)
        <==> m != "" && exists i: nat :: FirstBehind(list, model, i) && list[i] == m
  {
    var from := PlaceOf(list, model) + 1;
    if from <= |list| { FirstOtherAt(list, model, from); }
  }

  function Known(ctx: Context, order: seq<string>): (r: seq<string>)
    ensures forall k :: k in r <==> k in order && k in ctx.runners
  {
    if order == [] then [] else Known(ctx, order[..|order| - 1]) + if order[|order| - 1] in ctx.runners
        then [order[|order| - 1]] else []
  }

  /** The order from behind a runner, round to it again. */
  function Rotated(order: seq<string>, runner: string): (r: seq<string>)
    ensures forall k :: k != runner ==> (k in r <==> k in order)
  {
    var i := IndexOf(order, runner);
    if i < 0 then order
    else
      assert order == order[..i] + [runner] + order[i + 1..];
      order[i + 1..] + order[..i]
  }

  function AnotherRunner(ctx: Context, list: seq<string>, runner: string): Option<Choice> {
    var k := FirstUsable(ctx, list, runner);
    if k.None? then None else Some(Choice(k.value, ctx.subagents[k.value].model))
  }

  predicate SameRunnerServes(ctx: Context, run: Attempt) {
    run.reason == Some(Capacity) && run.runner in ctx.models && run.runner in ctx.subagents
        && ctx.subagents[run.runner].enabled
  }

  /** `nextRunner` */
  function NextRunner(ctx: Context, run: Attempt): Option<Choice> {
    if run.reason == Some(OnPurpose) then None
    else if run.reason == Some(Error) then AnotherRunner(ctx, Known(ctx, ctx.order), run.runner)
    else if SameRunnerServes(ctx, run) && OtherModel(ctx.models[run.runner], run.model).Some? then
      Some(Choice(run.runner, OtherModel(ctx.models[run.runner], run.model).value))
    else AnotherRunner(ctx, Rotated(Known(ctx, ctx.order), run.runner), run.runner)
  }

  /** A runner of the order, enabled, healthy and under its cap, with its own model. */
  predicate Elsewhere(ctx: Context, run: Attempt, c: Choice) {
    c.runner != run.runner && c.runner in ctx.order && Usable(ctx, c.runner) && c.model == ctx.subagents[c.runner].model
  }

  /** The same runner, still enabled, with another of its models after the one it had was busy. */
  predicate OtherModelHere(ctx: Context, run: Attempt, c: Choice) {
    && run.reason == Some(Capacity) && c.runner == run.runner && c.runner in ctx.subagents
      && ctx.subagents[c.runner].enabled
    && c.runner in ctx.models && c.model in ctx.models[c.runner] && c.model != run.model
  }

  /** A choice always fits, and there is none only when the stop was on purpose or no other runner can take the work. */
  lemma ChoiceFits(ctx: Context, run: Attempt)
    ensures var c := NextRunner(ctx, run);
            if c.Some? then run.reason != Some(OnPurpose)
                && (Elsewhere(ctx, run, c.value) || OtherModelHere(ctx, run, c.value))
            else run.reason == Some(OnPurpose) || forall k :: k in ctx.order && k != run.runner ==> !Usable(ctx, k)
  {
  }

  /** The order the runners are asked in: as configured after an error, else from behind the one that failed. */
  function Asked(ctx: Context, run: Attempt): seq<string> {
    if run.reason == Some(Error) then Known(ctx, ctx.order) else Rotated(Known(ctx, ctx.order), run.runner)
  }

  /** No usable runner stands before the chosen one in the order they are asked in. */
  lemma ChoiceIsFirst(ctx: Context, run: Attempt, k: string)
    requires run.reason != Some(OnPurpose) && k in ctx.order && k != run.runner && Usable(ctx, k)
    ensures NextRunner(ctx, run).Some?
    ensures var c := NextRunner(ctx, run).value;
        c.runner != run.runner ==> IndexOf(Asked(ctx, run), c.runner) <= IndexOf(Asked(ctx, run), k)
  {
    assert k in Known(ctx, ctx.order);
    FirstUsableIsFirst(ctx, Asked(ctx, run), run.runner, k);
  }

  /** `a` steps round a circle of n places. */
  function Round(a: nat, n: nat): (r: nat)
    requires a < 2 * n
    ensures r < n
  {
    if a < n then a else a - n
  }

  lemma RoundAt(order: seq<string>, i: nat, k: nat, r: seq<string>)
    requires i < |order| && k + 1 < |order| && r == order[i + 1..] + order[..i]
    ensures |r| == |order| - 1 && r[k] == order[Round(i + 1 + k, |order|)]
  {
  }

  lemma RotatedIs(order: seq<string>, runner: string, i: nat, r: seq<string>)
    requires runner in order && i == IndexOf(order, runner) && r == Rotated(order, runner)
    ensures r == order[i + 1..] + order[..i]
  {
  }

  /** From behind a runner the order goes round: place k of the rotated order is k + 1 places further on. */
  lemma RotatedAt(order: seq<string>, runner: string, k: nat)
    requires runner in order && k + 1 < |order|
    ensures |Rotated(order, runner)| == |order| - 1
    ensures Rotated(order, runner)[k] == order[Round(IndexOf(order, runner) + 1 + k, |order|)]
  {
    var i, r := IndexOf(order, runner), Rotated(order, runner);
    RotatedIs(order, runner, i, r);
    RoundAt(order, i, k, r);
  }

  /** Of some runners, place i holds the first but the one that failed that can take the work. */
  ghost predicate FirstToTake(ctx: Context, run: Attempt, list: seq<string>, i: nat) {
    && i < |list| && CanTake(ctx, run, list[i]) && forall j :: 0 <= j < i ==> !CanTake(ctx, run, list[j])
  }

  /** Another runner that is configured, enabled, healthy and below its cap, and the job is not too much for it. */
  predicate CanTake(ctx: Context, run: Attempt, k: string) {
    && k != run.runner && k in ctx.runners && k in ctx.healthy && k in ctx.subagents && ctx.subagents[k].enabled
    && (k in ctx.counts ==> ctx.counts[k] < ctx.subagents[k].max) && (k !in ctx.counts ==> ctx.subagents[k].max > 0)
    && (!ctx.basic ==> k != "pg")
  }

  /** It was busy, its runner still serves, and this model of its runner is the next to try. */
  ghost predicate NextModel(ctx: Context, run: Attempt, m: string) {
    && run.reason == Some(Capacity) && run.runner in ctx.models && run.runner in ctx.subagents
    && ctx.subagents[run.runner].enabled
    && m != "" && exists i: nat :: FirstBehind(ctx.models[run.runner], run.model, i) && ctx.models[run.runner][i] == m
  }

  lemma CanTakeIff(ctx: Context, run: Attempt, k: string)
    ensures CanTake(ctx, run, k) <==> k != run.runner && Usable(ctx, k)
  {
  }

  lemma {:induction false} FirstTakes(ctx: Context, run: Attempt, list: seq<string>, i: nat)
    requires FirstToTake(ctx, run, list, i)
    ensures FirstUsable(ctx, list, run.runner) == Some(list[i])
  {
    CanTakeIff(ctx, run, list[0]);
    if i > 0 {
      forall j | 0 <= j < i - 1 ensures !CanTake(ctx, run, list[1..][j]) { assert list[1..][j] == list[j + 1]; }
      FirstTakes(ctx, run, list[1..], i - 1);
    }
  }

  /** The next model of a runner that was busy comes before any other runner. */
  lemma NextModelFirst(ctx: Context, run: Attempt, m: string)
    requires NextModel(ctx, run, m)
    ensures NextRunner(ctx, run) == Some(Choice(run.runner, m))
  {
    OtherModelIff(ctx.models[run.runner], run.model, m);
  }

  lemma OtherIsNext(ctx: Context, run: Attempt)
    requires SameRunnerServes(ctx, run) && OtherModel(ctx.models[run.runner], run.model).Some?
    ensures NextModel(ctx, run, OtherModel(ctx.models[run.runner], run.model).value)
  {
    OtherModelIff(ctx.models[run.runner], run.model, OtherModel(ctx.models[run.runner], run.model).value);
  }

  /**
   Without one, the first runner in the order they are asked in takes the work, with the model it is configured with.
   */
  lemma FirstTakesIt(ctx: Context, run: Attempt, i: nat)
    requires run.reason != Some(OnPurpose) && (forall m :: !NextModel(ctx, run, m))
        && FirstToTake(ctx, run, Asked(ctx, run), i)
    ensures Asked(ctx, run)[i] in ctx.subagents
    ensures NextRunner(ctx, run) == Some(Choice(Asked(ctx, run)[i], ctx.subagents[Asked(ctx, run)[i]].model))
  {
    FirstTakes(ctx, run, Asked(ctx, run), i);
    if SameRunnerServes(ctx, run) && OtherModel(ctx.models[run.runner], run.model).Some? { OtherIsNext(ctx, run); }
  }

  // ---------------------------------------------------------------- why an attempt stopped

  datatype Hit = HitContext | HitCrash | HitTimeout | HitIncomplete | HitHung

  predicate Switchable(r: Reason) { r.Limit? || r.Auth? || r.Capacity? || r.Refused? }

  /** `facts`, of an attempt whose transcript was read before. */
  function FactsOf(a: Attempt): Facts { if a.facts.apiError == "" then a.facts.(apiError := a.error) else a.facts }

  /** `detect` */
  function Detect(rules: Rules, a: Attempt): Option<Hit> {
    var f := FactsOf(a);
    if a.status.Done? then None
    else if rules.context(f.apiError) || rules.context(f.finalText) then Some(HitContext)
    else if a.status.Interrupted? then Some(HitCrash)
    else if f.apiError != "" && Switchable(rules.reason(f.apiError)) then None
    else if f.exit == Some(124) then Some(HitTimeout)
    else if f.exit == Some(8) || rules.cutOff(f.stopKind) || (f.hasFinal && rules.incomplete(f.finalText))
        then Some(HitIncomplete)
    else if !f.hasFinal && f.apiError == "" then Some(HitCrash)
    else None
  }

  // ---------------------------------------------------------------- step

  datatype Action =
    | Wait
    | Finish
    | Stop
    | WrapUp(hit: string)
    | Continue(session: string)
    | Restart
    | Switch(runner: string, model: string)
    | Fail

  /** The latest attempt; of equally late ones, the first. */
  function LatestOf(at: Attempts, keys: seq<string>): (r: string)
    requires keys != [] && forall k :: k in keys ==> k in at
    ensures r in keys
  {
    if |keys| == 1 then keys[0]
    else
      var m, k := LatestOf(at, keys[..|keys| - 1]), keys[|keys| - 1];
      if at[k].updated > at[m].updated then k else m
  }

  /** `chainEnd` */
  function ChainEnd(runs: Runs): (r: string)
    requires Keyed(runs) && runs.order != []
    ensures r in runs.at
  {
    EndOf(runs.at, CarriedMap(runs.at, runs.order), LatestOf(runs.at, runs.order))
  }

  /** The attempt this one continues was settled by the owner. */
  predicate ParentSettled(runs: Runs, end: Attempt) {
    end.parent != "" && end.parent in runs.at && OwnerSettled(runs.at[end.parent])
  }

  function Tries(end: Attempt): nat { if end.attempt == 0 then 1 else end.attempt }

  function MaxTries(why: Reason): nat { if why.Error? then 2 else 4 }

  function SwitchOr(ctx: Context, runs: Runs, end: Attempt): Action {
    if ParentSettled(runs, end) then Fail
    else
      var c := NextRunner(ctx, end);
      if c.None? then Fail else Switch(c.value.runner, c.value.model)
  }

  function Why(rules: Rules, end: Attempt): Reason {
    if end.reason.Some? then end.reason.value else if end.error == "" then Unknown else rules.reason(end.error)
  }

  /** `budget.wrapUp`, of the limit that was hit; a stop that names none hit its steps. */
  function AtBudget(end: Attempt): Action {
    var hit := if end.hit == "" then "steps" else end.hit;
    if hit == "usd" || end.wrapUp then Stop else WrapUp(hit)
  }

  /** `step`, at the end of a chain. */
  function Step(rules: Rules, ctx: Context, runs: Runs, end: Attempt): Action {
    var why := Why(rules, end);
    var session := FactsOf(end).session;
    var hit := if end.hung then Some(HitHung) else Detect(rules, end);
    if Active(end.status) then Wait
    else if end.status.Done? then Finish
    else if why.OnPurpose? then Stop
    else if why.Budget? then AtBudget(end)
    else if why.Turns? then (if session != "" then Continue(session) else SwitchOr(ctx, runs, end))
    else if hit == Some(HitContext) then Restart
    else if hit.Some? then (if session == "" then Fail else Continue(session))
    else if Switchable(why) || why.Error? then (if Tries(end) >= MaxTries(why) then Fail else SwitchOr(ctx, runs, end))
    else Fail
  }

  /** `nextStep`: annotate the attempts, find the end of the chain, and decide. */
  function NextStep(rules: Rules, ctx: Context, runs: Runs): Option<Action>
    requires Keyed(runs)
  {
    AnnotatedKeeps(rules, runs);
    var told := Annotated(rules, runs);
    if told.order == [] then None else Some(Step(rules, ctx, told, told.at[ChainEnd(told)]))
  }

  /**
   A switch goes to an enabled, healthy runner under its cap, or to the same enabled runner with another model after a
   busy one; an attempt that continues one the owner settled is never switched, nor is one that works, finished or was
   stopped on purpose; and but for a harness's own turn cap, at most four attempts (two after an error) are made.
   */
  lemma SwitchFits(rules: Rules, ctx: Context, runs: Runs, end: Attempt)
    requires Step(rules, ctx, runs, end).Switch?
    ensures var s := Step(rules, ctx, runs, end); var c := Choice(s.runner, s.model);
            && (Elsewhere(ctx, end, c) || OtherModelHere(ctx, end, c))
            && !ParentSettled(runs, end)
            && !Active(end.status) && !end.status.Done? && !Why(rules, end).OnPurpose?
            && (Why(rules, end).Turns? || Tries(end) < MaxTries(Why(rules, end)))
  {
    ChoiceFits(ctx, end);
  }

  // ---------------------------------------------------------------- what each answer means

  /** What the attempt complained of: the error in its transcript, else the one it ended with. */
  function Complaint(e: Attempt): string { if e.facts.apiError != "" then e.facts.apiError else e.error }

  /** The reason it was annotated with, else the one its error tells; without either none is known. */
  predicate Because(rules: Rules, e: Attempt, why: Reason) {
    match e.reason
    case Some(r) => why == r
    case None => if e.error != "" then why == rules.reason(e.error) else why == Unknown
  }

  /** It ended, and not well. */
  predicate Over(e: Attempt) { e.status !in {Running, Queued, Done} }

  /** Its context grew too big. */
  predicate TooBig(rules: Rules, e: Attempt) { rules.context(Complaint(e)) || rules.context(e.facts.finalText) }

  /**
   It was interrupted; or it ran out of time, said it was not done, was cut off or left nothing behind, and did not
   complain of anything that is for another runner.
   */
  predicate CutShort(rules: Rules, e: Attempt) {
    || e.status.Interrupted?
    || (&& (Complaint(e) == "" || rules.reason(Complaint(e)) !in {Limit, Auth, Capacity, Refused})
        && (|| e.facts.exit in {Some(124), Some(8)} || rules.cutOff(e.facts.stopKind)
            || (e.facts.hasFinal && rules.incomplete(e.facts.finalText))
            || (!e.facts.hasFinal && Complaint(e) == "")))
  }

  /**
   It is over for a reason that has an answer of its own: it was on purpose, at a limit of the owner's or at a turn cap.
   */
  predicate Answered(why: Reason) { why in {OnPurpose, Budget, Turns} }

  /** The limit it stopped at leaves it a turn to land its work. */
  predicate LandsWork(e: Attempt) { e.hit != "usd" && !e.wrapUp }

  /** It may be tried again: for a reason the switch owns three times, after an error once. */
  predicate TriesAgain(why: Reason, e: Attempt) {
    if why.Error? then e.attempt <= 1 else why in {Limit, Auth, Capacity, Refused} && e.attempt <= 3
  }

  /** The work is not done and not broken: a turn cap, a quiet log, or an attempt that was cut short. */
  predicate Unfinished(rules: Rules, e: Attempt, why: Reason) {
    why.Turns? || (!Answered(why) && (e.hung || (!TooBig(rules, e) && CutShort(rules, e))))
  }

  /** Nothing of it goes on here: a turn cap without a session, or a failure that may be tried again. */
  predicate ForAnother(rules: Rules, e: Attempt, why: Reason) {
    || (why.Turns? && e.facts.session == "")
    || (!Answered(why) && !e.hung && !TooBig(rules, e) && !CutShort(rules, e) && TriesAgain(why, e))
  }

  /** Another runner takes it, unless the owner settled what it carries on. */
  predicate Handed(ctx: Context, runs: Runs, e: Attempt) { !ParentSettled(runs, e) && NextRunner(ctx, e).Some? }

  /** Attempt i is the latest; of equally late ones, the first. */
  ghost predicate LatestAt(runs: Runs, i: nat)
    requires Keyed(runs)
  {
    && i < |runs.order|
    && forall j :: 0 <= j < |runs.order| ==>
         var a, b := runs.at[runs.order[j]].updated, runs.at[runs.order[i]].updated;
         a <= b && (j < i ==> a < b)
  }

  lemma {:induction false} LatestFound(at: Attempts, keys: seq<string>, i: nat)
    requires i < |keys| && forall k :: k in keys ==> k in at
    requires forall j :: 0 <= j < |keys| ==> at[keys[j]].updated <= at[keys[i]].updated
    requires forall j :: 0 <= j < i ==> at[keys[j]].updated < at[keys[i]].updated
    ensures LatestOf(at, keys) == keys[i]
  {
    var n := |keys| - 1;
    if i < n {
      LatestFound(at, keys[..n], i);
    } else if n > 0 {
      var m := LatestOf(at, keys[..n]);
      var j :| 0 <= j < n && keys[..n][j] == m;
      assert keys[j] == m;
    }
  }

  lemma EndOfLatest(runs: Runs, i: nat)
    requires Keyed(runs) && LatestAt(runs, i)
    ensures ChainEnd(runs) == EndOf(runs.at, CarriedMap(runs.at, runs.order), runs.order[i])
  {
    LatestFound(runs.at, runs.order, i);
  }

  /**
   What the next step is, by the end of the latest attempt's chain alone: wait while it is at work, done when it is
   done; else stop, or
   one last turn, by the reason; its own session goes on after a turn cap and when it was cut short, a new one starts
   when its context grew too big; another runner gets it when nothing of that holds and it may be tried again.
   */
  lemma NextStepIff(rules: Rules, ctx: Context, runs: Runs, told: Runs, latest: nat, e: Attempt, why: Reason, x: Action)
    requires Keyed(runs) && told == Annotated(rules, runs) && Keyed(told) && LatestAt(told, latest)
    requires e == told.at[EndOf(told.at, CarriedMap(told.at, told.order), told.order[latest])]
    requires NextStep(rules, ctx, runs) == Some(x) && Because(rules, e, why)
    ensures x.Wait? <==> e.status in {Running, Queued}
    ensures x.Finish? <==> e.status.Done?
    ensures x.Stop? <==> Over(e) && (why.OnPurpose? || (why.Budget? && !LandsWork(e)))
    ensures x.WrapUp? <==> Over(e) && why.Budget? && LandsWork(e)
    ensures x.WrapUp? ==> x.hit == if e.hit == "" then "steps" else e.hit
    ensures x.Restart? <==> Over(e) && !Answered(why) && !e.hung && TooBig(rules, e)
    ensures x.Continue? <==> Over(e) && e.facts.session != "" && Unfinished(rules, e, why)
    ensures x.Continue? ==> x.session == e.facts.session
    ensures x.Switch? <==> Over(e) && Handed(ctx, told, e) && ForAnother(rules, e, why)
    ensures x.Switch? ==> Choice(x.runner, x.model) == NextRunner(ctx, e).value
  {
    EndOfLatest(told, latest);
    NextIs(rules, ctx, runs, told, e, x);
    StepIff(rules, ctx, told, e, why, x);
  }

  lemma NextIs(rules: Rules, ctx: Context, runs: Runs, told: Runs, e: Attempt, x: Action)
    requires Keyed(runs) && told == Annotated(rules, runs) && Keyed(told) && told.order != []
        && e == told.at[ChainEnd(told)]
    requires NextStep(rules, ctx, runs) == Some(x)
    ensures x == Step(rules, ctx, told, e)
  {
  }

  lemma StepIff(rules: Rules, ctx: Context, told: Runs, e: Attempt, why: Reason, x: Action)
    requires x == Step(rules, ctx, told, e) && why == Why(rules, e)
    ensures x.Wait? <==> e.status in {Running, Queued}
    ensures x.Finish? <==> e.status.Done?
    ensures x.Stop? <==> Over(e) && (why.OnPurpose? || (why.Budget? && !LandsWork(e)))
    ensures x.WrapUp? <==> Over(e) && why.Budget? && LandsWork(e)
    ensures x.WrapUp? ==> x.hit == if e.hit == "" then "steps" else e.hit
    ensures x.Restart? <==> Over(e) && !Answered(why) && !e.hung && TooBig(rules, e)
    ensures x.Continue? <==> Over(e) && e.facts.session != "" && Unfinished(rules, e, why)
    ensures x.Continue? ==> x.session == e.facts.session
    ensures x.Switch? <==> Over(e) && Handed(ctx, told, e) && ForAnother(rules, e, why)
    ensures x.Switch? ==> Choice(x.runner, x.model) == NextRunner(ctx, e).value
  {
    if !e.status.Done? { DetectIff(rules, e, Detect(rules, e)); }
  }

  lemma DetectIff(rules: Rules, e: Attempt, hit: Option<Hit>)
    requires hit == Detect(rules, e) && !e.status.Done?
    ensures hit == Some(HitContext) <==> TooBig(rules, e)
    ensures hit.Some? <==> TooBig(rules, e) || CutShort(rules, e)
  {
  }

  // ---------------------------------------------------------------- driving a chain

  /** The attempts made one after the other. */
  function RunsOf(made: seq<Attempt>): Runs {
    if made == [] then Runs([], map[])
    else
      var before, last := RunsOf(made[..|made| - 1]), made[|made| - 1];
      Runs(before.order + [last.key], before.at[last.key := last])
  }

  /** The attempt failed, and neither the owner nor an earlier annotation said what became of it. */
  predicate Broke(a: Attempt) {
    a.status.Failed? && !a.stopped && !a.hung && a.resolvedNote == "" && a.resolved.None?
  }

  /** Why it failed: of a runner of the portal, what its error says; of another, the reason it was given. */
  function Cause(rules: Rules, a: Attempt): Reason {
    if a.runner in RUNNERS then rules.reason(a.error) else Why(rules, a)
  }

  /** It failed for a reason the switch owns, or with an error, and there is nothing to continue. */
  predicate Spoiled(rules: Rules, a: Attempt) {
    Broke(a) && (Switchable(Cause(rules, a)) || Cause(rules, a).Error?) && Detect(rules, a).None?
  }

  ghost predicate Distinct(made: seq<Attempt>) { forall i, j :: 0 <= i < j < |made| ==> made[i].key != made[j].key }

  ghost predicate Rising(made: seq<Attempt>) {
    forall i, j :: 0 <= i < j < |made| ==> made[i].updated < made[j].updated
  }

  /** Each attempt is over a minute later than all before it. */
  ghost predicate Apart(made: seq<Attempt>) {
    forall i, j :: 0 <= i < j < |made| ==> made[i].updated + GRACE < made[j].updated
  }

  /** Each attempt names the one after it as its retry. */
  ghost predicate Joined(made: seq<Attempt>) {
    forall i {:trigger made[i].next} :: 0 <= i < |made| - 1 ==> made[i].next == made[i + 1].key && made[i + 1].key != ""
  }

  /** A retry is a later attempt, and what an attempt carries on is an earlier one. */
  ghost predicate Onward(made: seq<Attempt>) {
    forall i, j :: 0 <= i < |made| && 0 <= j < |made| ==>
      (made[i].next == made[j].key ==> i < j) && (made[i].parent == made[j].key ==> j < i)
  }

  /** Each attempt names the one before it, and the first names none of them. */
  ghost predicate LinkedBack(made: seq<Attempt>) {
    && (forall i {:trigger made[i].prev} :: 0 < i < |made| ==> made[i].prev == made[i - 1].key && made[i - 1].key != "")
    && (forall j :: 0 <= j < |made| ==> made[0].prev != made[j].key)
  }

  /** Only runners of the portal are numbered by their links; another must be given its place in the line. */
  predicate Placed(a: Attempt, place: nat) {
    a.attempt == place || (place == 1 && a.attempt == 0) || (place > 1 && a.runner in RUNNERS)
  }

  /**
   A line of failed attempts, made one after the other: links lead on, each names the one before it, and any two are
   over a minute apart or each names its retry. A reason, a number, a model and a session may be given with each.
   */
  ghost predicate Line(made: seq<Attempt>) {
    && Distinct(made) && Rising(made) && Onward(made) && LinkedBack(made)
    && (Apart(made) || Joined(made))
    && (forall i: nat :: i < |made| ==> Broke(made[i]) && Placed(made[i], i + 1))
  }

  /** None of the attempts ended at a harness's own turn cap. */
  ghost predicate NoTurns(rules: Rules, made: seq<Attempt>) {
    forall i :: 0 <= i < |made| ==> !Cause(rules, made[i]).Turns?
  }

  /** Close together, the attempts are no more than a walk over the links passes through. */
  ghost predicate Reached(made: seq<Attempt>) { made != [] && (Apart(made) || |made| <= HOPS + 1) }

  /** Every attempt but the first was made because `step` said to switch to its runner and model. */
  ghost predicate Driven(rules: Rules, ctxs: seq<Context>, made: seq<Attempt>) {
    |ctxs| == |made| && forall i :: 0 < i < |made| ==> MadeBySwitch(rules, ctxs[i], made[..i], made[i])
  }

  ghost predicate MadeBySwitch(rules: Rules, ctx: Context, before: seq<Attempt>, a: Attempt) {
    Keyed(RunsOf(before)) && NextStep(rules, ctx, RunsOf(before)) == Some(Switch(a.runner, a.model))
  }

  lemma {:induction false} RunsOfOrder(made: seq<Attempt>)
    ensures |RunsOf(made).order| == |made| && forall i :: 0 <= i < |made| ==> RunsOf(made).order[i] == made[i].key
  {
    if made != [] { RunsOfOrder(made[..|made| - 1]); }
  }

  lemma {:induction false} RunsOfKeys(made: seq<Attempt>, k: string)
    ensures k in RunsOf(made).at <==> k in RunsOf(made).order
    ensures k in RunsOf(made).at ==> RunsOf(made).at[k].key == k && RunsOf(made).at[k] in made
  {
    if made != [] { RunsOfKeys(made[..|made| - 1], k); }
  }

  lemma {:induction false} RunsOfAt(made: seq<Attempt>, i: nat)
    requires Distinct(made) && i < |made|
    ensures made[i].key in RunsOf(made).at && RunsOf(made).at[made[i].key] == made[i]
  {
    var n := |made| - 1;
    if i < n {
      assert forall i, j :: 0 <= i < j < n ==> made[..n][i].key != made[..n][j].key;
      RunsOfAt(made[..n], i);
    }
  }

  lemma RunsOfKeyed(made: seq<Attempt>)
    requires Distinct(made)
    ensures Keyed(RunsOf(made))
  {
    RunsOfOrder(made);
    forall k ensures (k in RunsOf(made).at <==> k in RunsOf(made).order)
        && (k in RunsOf(made).at ==> RunsOf(made).at[k].key == k) {
      RunsOfKeys(made, k);
    }
  }

  /** The attempts of a line by key. */
  ghost predicate Holds(made: seq<Attempt>, at: Attempts) {
    && (forall j :: 0 <= j < |made| ==> made[j].key in at && at[made[j].key] == made[j])
    && (forall k :: k in at ==> at[k] in made && at[k].key == k)
  }

  lemma RunsOfHolds(made: seq<Attempt>)
    requires Distinct(made)
    ensures Holds(made, RunsOf(made).at)
  {
    forall j | 0 <= j < |made| ensures made[j].key in RunsOf(made).at && RunsOf(made).at[made[j].key] == made[j] {
      RunsOfAt(made, j);
    }
    forall k | k in RunsOf(made).at ensures RunsOf(made).at[k] in made && RunsOf(made).at[k].key == k {
      RunsOfKeys(made, k);
    }
  }

  /** The attempt at an index leads back to the one before it, and the first to none. */
  ghost predicate LeadsBack(made: seq<Attempt>, at: Attempts, i: nat)
    requires i < |made|
  {
    if i == 0 then made[i].prev !in at else made[i].prev != "" && made[i].prev in at && at[made[i].prev] == made[i - 1]
  }

  lemma AllLeadBack(made: seq<Attempt>, at: Attempts)
    requires LinkedBack(made) && Holds(made, at)
    ensures forall i: nat :: i < |made| ==> LeadsBack(made, at, i)
  {
  }

  lemma OneEarlier(at: Attempts, prev: string, hops: nat)
    requires prev != "" && prev in at && hops > 0
    ensures Earlier(at, prev, hops) == 1 + Earlier(at, at[prev].prev, hops - 1)
  {
  }

  lemma {:induction false} EarlierInLine(made: seq<Attempt>, at: Attempts, i: nat, hops: nat)
    requires i < |made| && forall i: nat :: i < |made| ==> LeadsBack(made, at, i)
    ensures Earlier(at, made[i].prev, hops) == Min(i, hops)
    decreases hops
  {
    assert LeadsBack(made, at, i);
    if i > 0 && hops > 0 {
      EarlierInLine(made, at, i - 1, hops - 1);
      OneEarlier(at, made[i].prev, hops);
    }
  }

  lemma NothingLater(made: seq<Attempt>, at: Attempts, keys: seq<string>)
    requires made != [] && Apart(made) && Holds(made, at)
    ensures Later(at, keys, made[|made| - 1].key, made[|made| - 1].updated) == []
  {
    var last := made[|made| - 1];
    var later := Later(at, keys, last.key, last.updated);
    if later != [] {
      var k := later[0];
      assert k in later;
      var i :| 0 <= i < |made| && made[i] == at[k];
      assert false;
    }
  }

  /** The attempts of a line before and after `annotate`, and the last of them. */
  ghost predicate Told(made: seq<Attempt>, runs: Runs, told: Runs, last: Attempt, end: Attempt) {
    && made != [] && last == made[|made| - 1] && Keyed(runs) && Holds(made, runs.at)
    && |runs.order| == |made| && (forall i :: 0 <= i < |made| ==> runs.order[i] == made[i].key)
    && Keyed(told) && Kept(runs.at, told.at) && told.order == runs.order && last.key in told.at
      && end == told.at[last.key]
  }

  lemma ToldOf(rules: Rules, made: seq<Attempt>, runs: Runs, told: Runs, last: Attempt, end: Attempt)
    requires made != [] && Distinct(made) && last == made[|made| - 1] && runs == RunsOf(made) && Keyed(runs)
    requires told == Annotated(rules, runs) && last.key in told.at && end == told.at[last.key]
    ensures Told(made, runs, told, last, end)
  {
    RunsOfHolds(made);
    RunsOfOrder(made);
    AnnotatedKeeps(rules, runs);
  }

  /** What `annotate` says of a failed attempt, and where its words come from. */
  ghost predicate Says(rules: Rules, runs: Runs, a: Attempt, end: Attempt)
    requires Keyed(runs) && a.key in runs.at
  {
    && Why(rules, end) == Cause(rules, a) && end.attempt == NumberOf(runs, a)
    && (Open(rules, runs, a) ==> end.resolved.None?)
    && (ComesBack(runs.at, CarriedMap(runs.at, runs.order), a.key) ==> OwnEnd(end, a.key))
  }

  lemma SaysOf(rules: Rules, runs: Runs, told: Runs, a: Attempt, end: Attempt)
    requires Keyed(runs) && Plain(runs) && AllLeft(runs.at) && a.key in runs.at && runs.at[a.key] == a && Broke(a)
    requires told == Annotated(rules, runs) && a.key in told.at && end == told.at[a.key]
    ensures Says(rules, runs, a, end) && AllLeft(told.at)
  {
    OwnersWordOnly(rules, runs);
    AnnotatedKeeps(rules, runs);
    SaidOf(rules, runs, a.key, end);
    WhySaid(rules, a, end);
    if ComesBack(runs.at, CarriedMap(runs.at, runs.order), a.key) { BackIsOwnEnd(rules, runs, a.key, end); }
  }

  lemma WhySaid(rules: Rules, a: Attempt, end: Attempt)
    requires Broke(a) && SameButNotes(a, end) && end.reason == WhyStopped(rules, a)
    ensures Why(rules, end) == Cause(rules, a)
  {
  }

  lemma LineSays(rules: Rules, made: seq<Attempt>, runs: Runs, told: Runs, last: Attempt, end: Attempt)
    requires Told(made, runs, told, last, end) && told == Annotated(rules, runs) && forall i ::
        0 <= i < |made| ==> Broke(made[i])
    ensures Says(rules, runs, last, end) && AllLeft(told.at)
  {
    LastPlain(made, runs.at);
    SaysOf(rules, runs, told, last, end);
  }

  lemma LastPlain(made: seq<Attempt>, at: Attempts)
    requires (forall i :: 0 <= i < |made| ==> Broke(made[i])) && Holds(made, at)
    ensures AllLeft(at) && forall k :: k in at ==> at[k].resolved.None?
  {
    forall k | k in at ensures LeftAlone(at[k]) && at[k].resolved.None? {
      var j :| 0 <= j < |made| && made[j] == at[k];
    }
  }

  // The links of the last attempt.

  lemma LastUnfollowed(made: seq<Attempt>, at: Attempts, last: Attempt)
    requires made != [] && Onward(made) && Holds(made, at) && last == made[|made| - 1]
    ensures last.next !in at && forall k :: k in at ==> at[k].parent != last.key
  {
    forall k | k in at ensures at[k].parent != last.key { var j :| 0 <= j < |made| && made[j] == at[k]; }
  }

  lemma NothingCarried(at: Attempts, keys: seq<string>, p: string)
    requires (forall k :: k in keys ==> k in at) && forall k :: k in at ==> at[k].parent != p
    ensures p !in CarriedMap(at, keys)
  {
    LatestCarries(at, keys, p);
  }

  /** Nothing leads on from an attempt but, at most, what is said to have become of it. */
  ghost predicate NoLinks(at: Attempts, carried: Links, key: string) {
    key in at && key !in carried && at[key].next !in at
  }

  lemma LastLinks(made: seq<Attempt>, at: Attempts, told: Attempts, order: seq<string>, last: Attempt)
    requires made != [] && Onward(made) && Holds(made, at) && Kept(at, told) && last == made[|made| - 1]
    requires forall k :: k in order ==> k in told
    ensures NoLinks(told, CarriedMap(told, order), last.key)
  {
    LastUnfollowed(made, at, last);
    assert SameButNotes(at[last.key], told[last.key]);
    forall k | k in told ensures told[k].parent != last.key { assert SameButNotes(at[k], told[k]); }
    NothingCarried(told, order, last.key);
  }

  // What is said of the last attempt.

  lemma LastNumber(made: seq<Attempt>, runs: Runs, last: Attempt, n: nat)
    requires made != [] && LinkedBack(made) && Holds(made, runs.at) && last == made[|made| - 1]
    requires Placed(last, |made|) && n == NumberOf(runs, last)
    ensures n == |made| || (n == 9 && |made| > 9) || (n == 0 && |made| == 1)
  {
    AllLeadBack(made, runs.at);
    EarlierInLine(made, runs.at, |made| - 1, 8);
  }

  lemma LastTries(rules: Rules, made: seq<Attempt>, runs: Runs, last: Attempt, end: Attempt)
    requires made != [] && LinkedBack(made) && last == made[|made| - 1] && Keyed(runs) && Holds(made, runs.at)
    requires Says(rules, runs, last, end) && Placed(last, |made|)
    ensures Min(Tries(end), 9) == Min(|made|, 9)
  {
    LastNumber(made, runs, last, NumberOf(runs, last));
  }

  lemma LastOpen(rules: Rules, made: seq<Attempt>, runs: Runs, last: Attempt)
    requires made != [] && last == made[|made| - 1] && Keyed(runs) && last.key in runs.at && Broke(last)
    ensures Holds(made, runs.at) && Apart(made) && Onward(made) ==> Open(rules, runs, last)
  {
    if Holds(made, runs.at) && Apart(made) && Onward(made) {
      NothingLater(made, runs.at, rules.related(runs, last.key));
      LastUnfollowed(made, runs.at, last);
    }
  }

  // Where attempts name their retries, a walk over the links comes to the last one.

  lemma NextInLine(made: seq<Attempt>, runs: Runs, seen: Attempts, carried: Links, start: string, i: nat)
        returns (t: nat)
    requires Joined(made) && Onward(made) && Distinct(made) && i < |made| - 1 && Keyed(runs) && Holds(made, runs.at)
        && Kept(runs.at, seen)
    requires carried == CarriedMap(runs.at, runs.order)
    ensures i < t < |made| && made[i].key in seen && Preferred(seen, carried, made[i].key, start) == Some(made[t].key)
  {
    var k := made[i].key;
    assert SameButNotes(runs.at[k], seen[k]) && made[i].next == made[i + 1].key;
    LatestCarries(runs.at, runs.order, k);
    if k in carried {
      var c: nat :| Latest(runs.at, runs.order, k, c) && carried[k] == runs.order[c];
      t :| 0 <= t < |made| && made[t] == runs.at[carried[k]];
    } else {
      t := i + 1;
    }
  }

  /** From each attempt of a line but the last, the link that is followed leads on in it. */
  ghost predicate LeadsOn(made: seq<Attempt>, seen: Attempts, carried: Links, start: string) {
    forall i: nat :: i < |made| - 1 ==> Leads(made, seen, carried, start, i)
  }

  ghost predicate Leads(made: seq<Attempt>, seen: Attempts, carried: Links, start: string, i: nat)
    requires i < |made|
  {
    made[i].key in seen && exists t ::
        i < t < |made| && Preferred(seen, carried, made[i].key, start) == Some(made[t].key)
  }

  ghost predicate UpTo(made: seq<Attempt>, trail: seq<string>, j: nat) {
    j < |made| && trail != [] && trail[|trail| - 1] == made[j].key
    && forall k :: k in trail ==> exists u :: 0 <= u <= j && made[u].key == k
  }

  lemma UpToNext(made: seq<Attempt>, seen: Attempts, trail: seq<string>, j: nat, t: nat, more: seq<string>)
    requires Distinct(made) && UpTo(made, trail, j) && j < t < |made| && made[t].key in seen
    requires more == trail + [made[t].key] && forall k :: k in trail ==> k in seen
    ensures made[t].key !in trail && UpTo(made, more, t) && forall k :: k in more ==> k in seen
  {
  }

  lemma WalkOnNext(seen: Attempts, carried: Links, start: string, trail: seq<string>, hops: nat, r: seq<string>,
        more: seq<string>, k: string)
    requires trail != [] && (forall k :: k in trail ==> k in seen) && hops > 0 && k in seen && k !in trail
        && more == trail + [k]
    requires Preferred(seen, carried, trail[|trail| - 1], start) == Some(k)
        && r == Walk(seen, carried, start, trail, hops)
    ensures (forall k :: k in more ==> k in seen) && r == Walk(seen, carried, start, more, hops - 1)
  {
    WalkOnce(seen, carried, start, trail, hops);
  }

  lemma {:induction false} WalkOn(made: seq<Attempt>, seen: Attempts, carried: Links, start: string,
        trail: seq<string>, j: nat, hops: nat, r: seq<string>)
    requires Distinct(made) && LeadsOn(made, seen, carried, start) && UpTo(made, trail, j) && |made| - 1 - j <= hops
    requires forall k :: k in trail ==> k in seen
    requires made[|made| - 1].key in seen && Preferred(seen, carried, made[|made| - 1].key, start).None?
    requires r == Walk(seen, carried, start, trail, hops)
    ensures r[|r| - 1] == made[|made| - 1].key
    decreases |made| - j
  {
    if j < |made| - 1 {
      assert Leads(made, seen, carried, start, j);
      var t :| j < t < |made| && Preferred(seen, carried, made[j].key, start) == Some(made[t].key);
      var more := trail + [made[t].key];
      UpToNext(made, seen, trail, j, t, more);
      WalkOnNext(seen, carried, start, trail, hops, r, more, made[t].key);
      WalkOn(made, seen, carried, start, more, t, hops - 1, r);
    }
  }

  lemma JoinedLeadsOn(made: seq<Attempt>, runs: Runs, seen: Attempts, carried: Links, p: string)
    requires Joined(made) && Onward(made) && Distinct(made) && Keyed(runs) && Holds(made, runs.at)
        && Kept(runs.at, seen)
    requires carried == CarriedMap(runs.at, runs.order)
    ensures LeadsOn(made, seen, carried, p)
  {
    forall i: nat | i < |made| - 1 ensures Leads(made, seen, carried, p, i) {
      var t := NextInLine(made, runs, seen, carried, p, i);
    }
  }

  lemma JoinedEnds(made: seq<Attempt>, runs: Runs, seen: Attempts, carried: Links, p: string, last: Attempt)
    requires made != [] && Distinct(made) && |made| <= HOPS + 1 && last == made[|made| - 1]
    requires LeadsOn(made, seen, carried, p) && Holds(made, runs.at) && Kept(runs.at, seen)
    requires p in seen && last.key in seen && SaysFollowed(seen[last.key], p) && NoLinks(runs.at, carried, last.key)
    ensures EndOf(seen, carried, p) == last.key
  {
    assert SameButNotes(runs.at[last.key], seen[last.key]);
    var i :| 0 <= i < |made| && made[i] == runs.at[p];
    assert UpTo(made, [p], i);
    var r := Walk(seen, carried, p, [p], HOPS);
    WalkOn(made, seen, carried, p, [p], i, HOPS, r);
    EndIsWalk(seen, carried, p, r);
  }

  lemma JoinedBack(made: seq<Attempt>, runs: Runs, carried: Links, last: Attempt)
    requires made != [] && last == made[|made| - 1] && Keyed(runs) && carried == CarriedMap(runs.at, runs.order)
    ensures Joined(made) && Onward(made) && Distinct(made) && |made| <= HOPS + 1 && Holds(made, runs.at)
        ==> ComesBack(runs.at, carried, last.key)
  {
    if Joined(made) && Onward(made) && Distinct(made) && |made| <= HOPS + 1 && Holds(made, runs.at) {
      KeptSame(runs.at);
      LastLinks(made, runs.at, runs.at, runs.order, last);
      forall seen: Attempts, p | Kept(runs.at, seen) && last.key in seen && SaysFollowed(seen[last.key], p) && p in seen
        ensures EndOf(seen, carried, p) == last.key
      {
        JoinedLeadsOn(made, runs, seen, carried, p);
        JoinedEnds(made, runs, seen, carried, p, last);
      }
    }
  }

  lemma KeptSame(at: Attempts)
    ensures Kept(at, at)
  {
  }

  /** Nothing follows the last attempt of a line, or the chain comes back to it. */
  lemma LastFree(rules: Rules, made: seq<Attempt>, runs: Runs, last: Attempt)
    requires Reached(made) && (Apart(made) || Joined(made)) && Distinct(made) && Onward(made)
        && last == made[|made| - 1] && Broke(last)
    requires Keyed(runs) && Holds(made, runs.at)
    ensures Open(rules, runs, last) || ComesBack(runs.at, CarriedMap(runs.at, runs.order), last.key)
  {
    LastOpen(rules, made, runs, last);
    JoinedBack(made, runs, CarriedMap(runs.at, runs.order), last);
  }

  /** The last attempt of a line is not said to have been ended by another. */
  lemma LastOwnEnd(rules: Rules, runs: Runs, last: Attempt, end: Attempt)
    requires Keyed(runs) && last.key in runs.at && Says(rules, runs, last, end)
    requires Open(rules, runs, last) || ComesBack(runs.at, CarriedMap(runs.at, runs.order), last.key)
    ensures OwnEnd(end, last.key)
  {
  }

  lemma {:induction false} LatestIsLast(made: seq<Attempt>, at: Attempts, keys: seq<string>)
    requires made != [] && Rising(made) && |keys| == |made|
    requires forall i ::
        0 <= i < |made| ==> keys[i] == made[i].key && keys[i] in at && at[keys[i]].updated == made[i].updated
    ensures (forall k :: k in keys ==> k in at) && LatestOf(at, keys) == made[|made| - 1].key
  {
    if |keys| > 1 {
      var n := |keys| - 1;
      var m := LatestOf(at, keys[..n]);
      var i :| 0 <= i < n && keys[..n][i] == m;
      assert keys[i] == m;
    }
  }

  lemma LatestTold(made: seq<Attempt>, runs: Runs, told: Runs, last: Attempt, end: Attempt)
    requires Told(made, runs, told, last, end) && Rising(made)
    ensures told.order != [] && LatestOf(told.at, told.order) == last.key
  {
    forall i | 0 <= i < |made| ensures told.order[i] in told.at && told.at[told.order[i]].updated == made[i].updated {
      assert SameButNotes(runs.at[made[i].key], told.at[made[i].key]);
    }
    LatestIsLast(made, told.at, told.order);
  }

  lemma AloneEnds(at: Attempts, carried: Links, key: string)
    requires NoLinks(at, carried, key) && OwnEnd(at[key], key)
    ensures EndOf(at, carried, key) == key
  {
    assert Preferred(at, carried, key, key).None?;
  }

  lemma EndsThere(made: seq<Attempt>, runs: Runs, told: Runs, last: Attempt, end: Attempt)
    requires Told(made, runs, told, last, end) && Rising(made) && Onward(made) && OwnEnd(end, last.key)
    ensures told.order != [] && ChainEnd(told) == last.key
  {
    LatestTold(made, runs, told, last, end);
    LastLinks(made, runs.at, told.at, told.order, last);
    AloneEnds(told.at, CarriedMap(told.at, told.order), last.key);
  }

  lemma NextStepIs(rules: Rules, ctx: Context, runs: Runs, told: Runs, key: string)
    requires Keyed(runs) && told == Annotated(rules, runs) && Keyed(told) && told.order != [] && ChainEnd(told) == key
    ensures key in told.at && NextStep(rules, ctx, runs) == Some(Step(rules, ctx, told, told.at[key]))
  {
  }

  /** The chain ends in the last attempt of a line, with its number and its reason. */
  lemma EndsInLast(rules: Rules, made: seq<Attempt>, runs: Runs, told: Runs, last: Attempt, end: Attempt)
    requires Line(made) && Reached(made) && runs == RunsOf(made) && Keyed(runs) && told == Annotated(rules, runs)
    requires last == made[|made| - 1] && last.key in told.at && end == told.at[last.key]
    ensures Keyed(told) && told.order != [] && ChainEnd(told) == last.key
    ensures SameButNotes(last, end) && Why(rules, end) == Cause(rules, last) && Min(Tries(end), 9) == Min(|made|, 9)
    ensures !ParentSettled(told, end)
  {
    ToldOf(rules, made, runs, told, last, end);
    LineSays(rules, made, runs, told, last, end);
    ToldEnds(rules, made, runs, told, last, end);
  }

  lemma ToldEnds(rules: Rules, made: seq<Attempt>, runs: Runs, told: Runs, last: Attempt, end: Attempt)
    requires Line(made) && Reached(made) && Told(made, runs, told, last, end) && Says(rules, runs, last, end)
        && AllLeft(told.at)
    ensures told.order != [] && ChainEnd(told) == last.key
    ensures SameButNotes(last, end) && Why(rules, end) == Cause(rules, last) && Min(Tries(end), 9) == Min(|made|, 9)
    ensures !ParentSettled(told, end)
  {
    LastTries(rules, made, runs, last, end);
    LastFree(rules, made, runs, last);
    LastOwnEnd(rules, runs, last, end);
    EndsThere(made, runs, told, last, end);
  }

  /** So the step is made on the last attempt. */
  lemma StepsOnLast(rules: Rules, ctx: Context, made: seq<Attempt>, last: Attempt) returns (told: Runs, end: Attempt)
    requires Line(made) && Reached(made) && last == made[|made| - 1]
    ensures Keyed(RunsOf(made)) && NextStep(rules, ctx, RunsOf(made)) == Some(Step(rules, ctx, told, end))
    ensures SameButNotes(last, end) && Why(rules, end) == Cause(rules, last) && Min(Tries(end), 9) == Min(|made|, 9)
    ensures !ParentSettled(told, end)
  {
    RunsOfKeyed(made);
    RunsOfAt(made, |made| - 1);
    told := Annotated(rules, RunsOf(made));
    end := told.at[last.key];
    EndsInLast(rules, made, RunsOf(made), told, last, end);
    NextStepIs(rules, ctx, RunsOf(made), told, last.key);
  }

  // ---------------------------------------------------------------- how long it goes on

  lemma SwitchTries(rules: Rules, ctx: Context, told: Runs, end: Attempt, why: Reason)
    requires Step(rules, ctx, told, end).Switch? && Why(rules, end) == why && !why.Turns?
    ensures Tries(end) < MaxTries(why)
  {
    SwitchFits(rules, ctx, told, end);
  }

  lemma PartOrdered(made: seq<Attempt>, before: seq<Attempt>, i: nat)
    requires Distinct(made) && Rising(made) && LinkedBack(made) && 0 < i <= |made| && before == made[..i]
    ensures Distinct(before) && Rising(before) && LinkedBack(before)
  {
    assert forall j {:trigger before[j]} :: 0 <= j < i ==> before[j] == made[j];
  }

  lemma PartOnward(made: seq<Attempt>, before: seq<Attempt>, i: nat)
    requires Onward(made) && 0 < i <= |made| && before == made[..i]
    ensures Onward(before)
  {
  }

  lemma PartTimed(made: seq<Attempt>, before: seq<Attempt>, i: nat)
    requires (Apart(made) || Joined(made)) && 0 < i <= |made| && before == made[..i]
    ensures Apart(before) || Joined(before)
  {
    if Apart(made) {
      PartApart(made, before, i);
    } else {
      PartJoined(made, before, i);
    }
  }

  lemma PartApart(made: seq<Attempt>, before: seq<Attempt>, i: nat)
    requires Apart(made) && 0 < i <= |made| && before == made[..i]
    ensures Apart(before)
  {
  }

  lemma PartJoined(made: seq<Attempt>, before: seq<Attempt>, i: nat)
    requires Joined(made) && 0 < i <= |made| && before == made[..i]
    ensures Joined(before)
  {
    forall j {:trigger before[j].next} | 0 <= j < |before| - 1 ensures before[j].next == before[j + 1].key
        && before[j + 1].key != "" {
      assert before[j] == made[j] && before[j + 1] == made[j + 1];
      assert made[j].next == made[j + 1].key;
    }
  }

  lemma PartLine(made: seq<Attempt>, before: seq<Attempt>, i: nat)
    requires Line(made) && 0 < i <= |made| && before == made[..i]
    ensures Line(before)
  {
    PartOrdered(made, before, i);
    PartOnward(made, before, i);
    PartTimed(made, before, i);
  }

  /** An attempt that was followed had tries left, or ended at a turn cap. */
  ghost predicate HadTries(rules: Rules, made: seq<Attempt>, i: nat)
    requires i < |made|
  {
    Cause(rules, made[i]).Turns? || i + 1 < MaxTries(Cause(rules, made[i]))
  }

  lemma PartReached(made: seq<Attempt>, before: seq<Attempt>, i: nat)
    requires Line(made) && 0 < i <= |made| && before == made[..i] && (Apart(made) || i <= HOPS + 1)
    ensures Line(before) && Reached(before)
  {
    PartLine(made, before, i);
    if Apart(made) { PartApart(made, before, i); }
  }

  /** In a line the step switches only while there are tries left. */
  lemma TriesLeft(rules: Rules, ctx: Context, made: seq<Attempt>, before: seq<Attempt>, i: nat)
    requires i < |made| - 1 && |before| == i + 1 && before[i] == made[i]
    requires Line(before) && Reached(before) && MadeBySwitch(rules, ctx, before, made[i + 1])
    ensures HadTries(rules, made, i)
  {
    var told, end := StepsOnLast(rules, ctx, before, made[i]);
    if !Cause(rules, made[i]).Turns? { SwitchTries(rules, ctx, told, end, Cause(rules, made[i])); }
  }

  /**
   In every chain driven with `step`, whatever the runners, their health and their load are at each step, an attempt was
   only followed while there were tries left, or because it ended at a turn cap.
   */
  lemma DrivenHadTries(rules: Rules, ctxs: seq<Context>, made: seq<Attempt>)
    requires Line(made) && Driven(rules, ctxs, made)
    ensures forall i: nat :: i < |made| - 1 && (Apart(made) || i <= HOPS) ==> HadTries(rules, made, i)
  {
    forall i: nat | i < |made| - 1 && (Apart(made) || i <= HOPS) ensures HadTries(rules, made, i) {
      PartReached(made, made[..i + 1], i + 1);
      assert MadeBySwitch(rules, ctxs[i + 1], made[..i + 1], made[i + 1]);
      TriesLeft(rules, ctxs[i + 1], made, made[..i + 1], i);
    }
  }

  /**
   So where none ended at a turn cap, driving a chain stops within four attempts, and an attempt after the first that
   ends with a real error is the last; two when all are errors.
   */
  lemma DrivenStops(rules: Rules, ctxs: seq<Context>, made: seq<Attempt>)
    requires Line(made) && NoTurns(rules, made) && Driven(rules, ctxs, made)
    ensures |made| <= 4
    ensures forall i :: 0 < i < |made| - 1 ==> !Cause(rules, made[i]).Error?
    ensures (forall i :: 0 <= i < |made| ==> Cause(rules, made[i]).Error?) ==> |made| <= 2
  {
    DrivenHadTries(rules, ctxs, made);
    FewAttempts(rules, made);
  }

  lemma FewAttempts(rules: Rules, made: seq<Attempt>)
    requires NoTurns(rules, made) && forall i: nat :: i < |made| - 1 && i <= HOPS ==> HadTries(rules, made, i)
    ensures |made| <= 4
    ensures forall i :: 0 < i < |made| - 1 ==> !Cause(rules, made[i]).Error?
    ensures (forall i :: 0 <= i < |made| ==> Cause(rules, made[i]).Error?) ==> |made| <= 2
  {
    assert 3 < |made| - 1 ==> HadTries(rules, made, 3);
    assert 1 < |made| - 1 ==> HadTries(rules, made, 1);
    forall i: nat | 0 < i < |made| - 1 ensures !Cause(rules, made[i]).Error? { assert HadTries(rules, made, i); }
  }

  /** What the step reads of a spoiled attempt is not changed by annotating it. */
  lemma SpoiledStep(rules: Rules, ctx: Context, runs: Runs, last: Attempt, end: Attempt)
    requires Spoiled(rules, last) && SameButNotes(last, end) && Why(rules, end) == Cause(rules, last)
    requires !ParentSettled(runs, end)
    ensures Step(rules, ctx, runs, end)
         == if Tries(end) >= MaxTries(Cause(rules, last)) || NextRunner(ctx, end).None? then Fail
            else Switch(NextRunner(ctx, end).value.runner, NextRunner(ctx, end).value.model)
  {
    assert Detect(rules, end) == Detect(rules, last);
  }

  /** At a turn cap with no session to continue, the number of the attempt is not asked. */
  lemma TurnsStep(rules: Rules, ctx: Context, runs: Runs, last: Attempt, end: Attempt)
    requires Broke(last) && SameButNotes(last, end) && Why(rules, end).Turns? && FactsOf(last).session == ""
    requires !ParentSettled(runs, end)
    ensures Step(rules, ctx, runs, end)
         == if NextRunner(ctx, end).None? then Fail
             else Switch(NextRunner(ctx, end).value.runner, NextRunner(ctx, end).value.model)
  {
  }

  lemma StepSwitches(rules: Rules, ctx: Context, told: Runs, last: Attempt, end: Attempt, k: string)
    requires Broke(last) && SameButNotes(last, end) && Why(rules, end) == Cause(rules, last)
        && !ParentSettled(told, end)
    requires Spoiled(rules, last) || (Cause(rules, last).Turns? && FactsOf(last).session == "")
    requires k in ctx.order && k != last.runner && Usable(ctx, k)
    ensures Step(rules, ctx, told, end).Switch?
        <==> Cause(rules, last).Turns? || Tries(end) < MaxTries(Cause(rules, last))
  {
    if Cause(rules, last).Turns? {
      TurnsStep(rules, ctx, told, last, end);
    } else {
      SpoiledStep(rules, ctx, told, last, end);
    }
    ChoiceFits(ctx, end);
  }

  /** The next step after these attempts is a switch. */
  ghost predicate Switches(rules: Rules, ctx: Context, made: seq<Attempt>) {
    Keyed(RunsOf(made)) && NextStep(rules, ctx, RunsOf(made)).Some? && NextStep(rules, ctx, RunsOf(made)).value.Switch?
  }

  /** The step at the end of a line, when it has a runner to switch to. */
  lemma LineStep(rules: Rules, ctx: Context, made: seq<Attempt>, last: Attempt, k: string)
    requires Line(made) && Reached(made) && last == made[|made| - 1] && k in ctx.order && k != last.runner
        && Usable(ctx, k)
    requires Spoiled(rules, last) || (Cause(rules, last).Turns? && FactsOf(last).session == "")
    ensures Switches(rules, ctx, made)
        <==> Cause(rules, last).Turns? || |made| < MaxTries(Cause(rules, last))
  {
    var told, end := StepsOnLast(rules, ctx, made, last);
    StepSwitches(rules, ctx, told, last, end, k);
    FewTries(Tries(end), |made|, Cause(rules, last));
  }

  lemma FewTries(tries: nat, n: nat, why: Reason)
    requires Min(tries, 9) == Min(n, 9)
    ensures tries < MaxTries(why) <==> n < MaxTries(why)
  {
  }

  /** With another usable runner, the step switches exactly while there are tries left: so the bounds are reached. */
  lemma LineGoesOn(rules: Rules, ctx: Context, made: seq<Attempt>, last: Attempt, k: string)
    requires Line(made) && Reached(made) && last == made[|made| - 1] && Spoiled(rules, last)
    requires k in ctx.order && k != last.runner && Usable(ctx, k)
    ensures Switches(rules, ctx, made) <==> |made| < MaxTries(Cause(rules, last))
  {
    NotTurns(rules, last);
    LineStep(rules, ctx, made, last, k);
  }

  lemma NotTurns(rules: Rules, a: Attempt)
    requires Spoiled(rules, a)
    ensures !Cause(rules, a).Turns?
  {
  }

  /** A line that ended at a harness's turn cap, with no session to continue, goes on however long it is already. */
  lemma TurnsNotBounded(rules: Rules, ctx: Context, made: seq<Attempt>, last: Attempt, k: string)
    requires Line(made) && Reached(made) && last == made[|made| - 1] && Cause(rules, last).Turns?
    requires FactsOf(last).session == "" && k in ctx.order && k != last.runner && Usable(ctx, k)
    ensures Switches(rules, ctx, made)
  {
    LineStep(rules, ctx, made, last, k);
  }

  // ---------------------------------------------------------------- the lines a service makes

  /**
   What attempt i of a row says: the one before it is its parent, the one after it its retry, its place its number.
   */
  ghost predicate InRow(made: seq<Attempt>, i: nat)
    requires i < |made|
  {
    && made[i].key != "" && Broke(made[i]) && made[i].attempt == i + 1
    && made[i].next == (if i + 1 < |made| then made[i + 1].key else "")
    && made[i].prev == (if i > 0 then made[i - 1].key else "") && made[i].parent == made[i].prev
  }

  ghost predicate Rowed(made: seq<Attempt>) { forall i: nat :: i < |made| ==> InRow(made, i) }

  lemma RowOnward(made: seq<Attempt>, i: nat, j: nat)
    requires Distinct(made) && i < |made| && j < |made| && InRow(made, i) && made[j].key != ""
    ensures made[i].next == made[j].key ==> j == i + 1
    ensures made[i].parent == made[j].key ==> i == j + 1
  {
  }

  lemma RowLinks(made: seq<Attempt>)
    requires Distinct(made) && Rowed(made)
    ensures Onward(made)
  {
    forall i: nat, j: nat | i < |made| && j < |made|
      ensures (made[i].next == made[j].key ==> i < j) && (made[i].parent == made[j].key ==> j < i)
    {
      assert InRow(made, i) && InRow(made, j);
      RowOnward(made, i, j);
    }
  }

  lemma RowBack(made: seq<Attempt>)
    requires Rowed(made)
    ensures LinkedBack(made)
  {
    forall i: nat {:trigger made[i].prev} | 0 < i < |made|
      ensures made[i].prev == made[i - 1].key && made[i - 1].key != ""
    {
      assert InRow(made, i) && InRow(made, i - 1);
    }
    if made != [] { assert InRow(made, 0); }
    forall j: nat | j < |made| ensures made[0].prev != made[j].key { assert InRow(made, j); }
  }

  lemma RowJoined(made: seq<Attempt>)
    requires Rowed(made)
    ensures Joined(made) && forall i: nat :: i < |made| ==> Broke(made[i]) && Placed(made[i], i + 1)
  {
    forall i: nat {:trigger made[i].next} | i < |made| - 1
      ensures made[i].next == made[i + 1].key && made[i + 1].key != ""
    {
      assert InRow(made, i) && InRow(made, i + 1);
    }
    forall i: nat | i < |made| ensures Broke(made[i]) && Placed(made[i], i + 1) { assert InRow(made, i); }
  }

  /** The attempts of a task, each the follow-up of the one before it, are a line however soon one follows another. */
  lemma RowIsLine(made: seq<Attempt>)
    requires Distinct(made) && Rising(made) && Rowed(made)
    ensures Line(made) && Joined(made)
  {
    RowLinks(made);
    RowBack(made);
    RowJoined(made);
  }
}
