/**
 server/events-consumer.js `handleRun` and `ignore`: an event id is claimed in an inbox in the same transaction as its
 effect. The database is a table with a unique key and atomic transactions: an insert of an id that another open
 transaction has inserted waits for it. Deliveries of the same event may overlap in any way, and any of them may fail
 at any point, which rolls its transaction back.
 */
module EventsConsumer {
  import opened Prelude

  type Id = string

  /**
   What an event's payload says: no job of ours in a state we know, or who asked and for which project ("" when it does
   not say).
   */
  datatype Payload = Malformed | JobEvent(requester: string, project: string)

  /** The row of a job. */
  datatype Task = Task(subject: string, project: string)

  /** Why an event is ignored. */
  datatype Why = BadPayload | NotACodesTask | AnotherSubject | AnotherProject

  /** Where a delivery's handler stands between two waits. */
  datatype Stage =
    | Begun
    | Looked                    // the inbox had no row
    | ToIgnore(why: Why)        // the ignore row is to be inserted
    | ToApply                   // its row was found and, for an end state, the job read
    | Claimed                   // in the transaction, the inbox row inserted
    | Applied                   // in the transaction, that row updated as well
    | Answered(duplicate: bool)
    | Failed

  /** One delivery; `found` is the row of the event's job once it was looked for. */
  datatype Delivery = Delivery(id: Id, payload: Payload, found: Option<Option<Task>>, stage: Stage)

  datatype Row = Effect | Ignored(why: Why)

  /** `inbox` holds the committed rows, `effects` the committed updates in order, `claims` the open inserts. */
  datatype State = State(inbox: map<Id, Row>, effects: seq<Id>, claims: map<Id, nat>, deliveries: seq<Delivery>)

  const START := State(map[], [], map[], [])

  datatype Action =
    | Deliver(id: Id, payload: Payload)
    | Look(k: nat)
    | Find(k: nat, task: Option<Task>)
    | InsertIgnore(k: nat)
    | InsertClaim(k: nat)
    | ApplyEvent(k: nat)
    | Commit(k: nat)
    | Fail(k: nat)

  // ---------------------------------------------------------------- the steps

  predicate At(s: State, k: nat, stage: Stage) { k < |s.deliveries| && s.deliveries[k].stage == stage }

  predicate InFlight(s: State, k: nat) {
    k < |s.deliveries| && !s.deliveries[k].stage.Answered? && !s.deliveries[k].stage.Failed?
  }

  predicate InTransaction(d: Delivery) { d.stage.Claimed? || d.stage.Applied? }

  /** An insert waits while another transaction has inserted the same id. */
  predicate Free(s: State, k: nat) { k < |s.deliveries| && s.deliveries[k].id !in s.claims }

  predicate Enabled(s: State, a: Action) {
    match a
    case Deliver(_, _) => true
    case Look(k) => At(s, k, Begun)
    case Find(k, _) => At(s, k, Looked) && s.deliveries[k].payload.JobEvent?
    case InsertIgnore(k) => k < |s.deliveries| && s.deliveries[k].stage.ToIgnore? && Free(s, k)
    case InsertClaim(k) => At(s, k, ToApply) && Free(s, k)
    case ApplyEvent(k) => At(s, k, Claimed)
    case Commit(k) => At(s, k, Applied)
    case Fail(k) => InFlight(s, k)
  }

  function Goes(s: State, k: nat, stage: Stage): State
    requires k < |s.deliveries|
  {
    s.(deliveries := s.deliveries[k := s.deliveries[k].(stage := stage)])
  }

  /** What a handler does with the row of an event's job. */
  function OnRow(payload: Payload, task: Option<Task>): Stage
    requires payload.JobEvent?
  {
    if task.None? then ToIgnore(NotACodesTask)
    else if payload.requester != "" && payload.requester != task.value.subject then ToIgnore(AnotherSubject)
    else if payload.project != "" && payload.project != task.value.project then ToIgnore(AnotherProject)
    else ToApply
  }

  function Step(s: State, a: Action): State
    requires Enabled(s, a)
  {
    match a
    case Deliver(id, payload) => s.(deliveries := s.deliveries + [Delivery(id, payload, None, Begun)])
    case Look(k) =>
      if s.deliveries[k].payload.Malformed? then Goes(s, k, ToIgnore(BadPayload))
      else if s.deliveries[k].id in s.inbox then Goes(s, k, Answered(true))
      else Goes(s, k, Looked)
    case Find(k, task) =>
      var d := s.deliveries[k];
      s.(deliveries := s.deliveries[k := d.(found := Some(task), stage := OnRow(d.payload, task))])
    case InsertIgnore(k) =>
      var id := s.deliveries[k].id;
      if id in s.inbox then Goes(s, k, Answered(true))
      else Goes(s, k, Answered(false)).(inbox := s.inbox[id := Ignored(s.deliveries[k].stage.why)])
    case InsertClaim(k) =>
      var id := s.deliveries[k].id;
      if id in s.inbox then Goes(s, k, Answered(true)) else Goes(s, k, Claimed).(claims := s.claims[id := k])
    case ApplyEvent(k) => Goes(s, k, Applied)
    case Commit(k) =>
      var id := s.deliveries[k].id;
      Goes(s, k, Answered(false)).(inbox := s.inbox[id := Effect],
                                    effects := s.effects + [id], claims := s.claims - {id})
    case Fail(k) =>
      var d := s.deliveries[k];
      if InTransaction(d) then Goes(s, k, Failed).(claims := s.claims - {d.id}) else Goes(s, k, Failed)
  }

  // ---------------------------------------------------------------- the consumer

  class Consumer {
    var inbox: map<Id, Row>
    var effects: seq<Id>
    var claims: map<Id, nat>
    var deliveries: seq<Delivery>

    function View(): State
      reads this
    {
      State(inbox, effects, claims, deliveries)
    }

    constructor ()
      ensures View() == START
    {
      inbox, effects, claims, deliveries := map[], [], map[], [];
    }

    method Goes(k: nat, stage: Stage)
      requires k < |deliveries|
      modifies `deliveries
      ensures deliveries == old(deliveries)[k := old(deliveries)[k].(stage := stage)]
    {
      deliveries := deliveries[k := deliveries[k].(stage := stage)];
    }

    method OnDelivery(id: Id, payload: Payload) returns (k: nat)
      modifies `deliveries
      ensures View() == Step(old(View()), Deliver(id, payload)) && k == old(|deliveries|)
    {
      k := |deliveries|;
      deliveries := deliveries + [Delivery(id, payload, None, Begun)];
    }

    /** The payload, and whether the inbox has the event already. */
    method OnLook(k: nat)
      requires Enabled(View(), Look(k))
      modifies `deliveries
      ensures View() == Step(old(View()), Look(k))
    {
      if deliveries[k].payload.Malformed? {
        Goes(k, ToIgnore(BadPayload));
      } else if deliveries[k].id in inbox {
        Goes(k, Answered(true));
      } else {
        Goes(k, Looked);
      }
    }

    /** The row of the event's job, and for an end state the job itself. */
    method OnFind(k: nat, task: Option<Task>)
      requires Enabled(View(), Find(k, task))
      modifies `deliveries
      ensures View() == Step(old(View()), Find(k, task))
    {
      var d := deliveries[k];
      deliveries := deliveries[k := d.(found := Some(task))];
      if task.None? {
        Goes(k, ToIgnore(NotACodesTask));
      } else if d.payload.requester != "" && d.payload.requester != task.value.subject {
        Goes(k, ToIgnore(AnotherSubject));
      } else if d.payload.project != "" && d.payload.project != task.value.project {
        Goes(k, ToIgnore(AnotherProject));
      } else {
        Goes(k, ToApply);
      }
    }

    /** `INSERT … ON CONFLICT (event_id) DO NOTHING` of an event that has no effect. */
    method OnInsertIgnore(k: nat)
      requires Enabled(View(), InsertIgnore(k))
      modifies `deliveries, `inbox
      ensures View() == Step(old(View()), InsertIgnore(k))
    {
      var d := deliveries[k];
      if d.id in inbox { Goes(k, Answered(true)); return; }
      inbox := inbox[d.id := Ignored(d.stage.why)];
      Goes(k, Answered(false));
    }

    /** The same insert as the first statement of the transaction. */
    method OnInsertClaim(k: nat)
      requires Enabled(View(), InsertClaim(k))
      modifies `deliveries, `claims
      ensures View() == Step(old(View()), InsertClaim(k))
    {
      var id := deliveries[k].id;
      if id in inbox { Goes(k, Answered(true)); return; }
      claims := claims[id := k];
      Goes(k, Claimed);
    }

    method OnApply(k: nat)
      requires Enabled(View(), ApplyEvent(k))
      modifies `deliveries
      ensures View() == Step(old(View()), ApplyEvent(k))
    {
      Goes(k, Applied);
    }

    method OnCommit(k: nat)
      requires Enabled(View(), Commit(k))
      modifies `deliveries, `inbox, `effects, `claims
      ensures View() == Step(old(View()), Commit(k))
    {
      var id := deliveries[k].id;
      inbox, effects, claims := inbox[id := Effect], effects + [id], claims - {id};
      Goes(k, Answered(false));
    }

    /** A failure, or the end of the process: an open transaction is rolled back. */
    method OnFail(k: nat)
      requires Enabled(View(), Fail(k))
      modifies `deliveries, `claims
      ensures View() == Step(old(View()), Fail(k))
    {
      if InTransaction(deliveries[k]) { claims := claims - {deliveries[k].id}; }
      Goes(k, Failed);
    }
  }

  // ---------------------------------------------------------------- what every interleaving keeps

  /** The deliveries of an event that were answered as the one that counted. */
  function Counted(deliveries: seq<Delivery>, id: Id): nat {
    if deliveries == [] then 0
    else
      var d := deliveries[|deliveries| - 1];
      Counted(deliveries[..|deliveries| - 1], id) + if d.id == id && d.stage == Answered(false) then 1 else 0
  }

  predicate Holds(s: State, k: nat, id: Id) {
    k < |s.deliveries| && s.deliveries[k].id == id && InTransaction(s.deliveries[k])
  }

  /** The delivery holds the claim on its event's id. */
  predicate Claims(s: State, k: nat)
    requires k < |s.deliveries|
  {
    s.deliveries[k].id in s.claims && s.claims[s.deliveries[k].id] == k
  }

  /** A transaction that inserted an id is the only one, and no row of that id is committed. */
  ghost predicate Locked(s: State) {
    && (forall k :: 0 <= k < |s.deliveries| && InTransaction(s.deliveries[k]) ==> Claims(s, k))
    && (forall id :: id in s.claims ==> id !in s.inbox && Holds(s, s.claims[id], id))
  }

  /** The committed updates are those of the inbox, once each. */
  ghost predicate Once(s: State) {
    && (forall i, j :: 0 <= i < j < |s.effects| ==> s.effects[i] != s.effects[j])
    && (forall id :: id in s.effects <==> id in s.inbox && s.inbox[id].Effect?)
  }

  /** An inbox row is there exactly when one delivery counted. */
  ghost predicate CountedOnce(s: State) { forall id :: Counted(s.deliveries, id) == if id in s.inbox then 1 else 0 }

  /** The event is of a job that has a row, and is not another subject's or another project's. */
  predicate Serves(payload: Payload, found: Option<Option<Task>>) {
    && payload.JobEvent? && found.Some? && found.value.Some?
    && payload.requester in {"", found.value.value.subject} && payload.project in {"", found.value.value.project}
  }

  /** What makes an event one to ignore, for each reason. */
  predicate Justified(why: Why, payload: Payload, found: Option<Option<Task>>) {
    match why
    case BadPayload => payload.Malformed?
    case NotACodesTask => payload.JobEvent? && found == Some(None)
    case AnotherSubject =>
      payload.JobEvent? && found.Some? && found.value.Some? && payload.requester !in {"", found.value.value.subject}
    case AnotherProject =>
      && payload.JobEvent? && found.Some? && found.value.Some?
      && payload.requester in {"", found.value.value.subject} && payload.project !in {"", found.value.value.project}
  }

  /** A handler stands where what it was given and found has brought it. */
  predicate Explained(d: Delivery) {
    match d.stage
    case Begun => d.found.None?
    case Looked => d.found.None? && d.payload.JobEvent?
    case ToIgnore(why) => Justified(why, d.payload, d.found)
    case ToApply => Serves(d.payload, d.found)
    case Claimed => Serves(d.payload, d.found)
    case Applied => Serves(d.payload, d.found)
    case _ => true
  }

  predicate RowFits(row: Row, d: Delivery) {
    match row
    case Effect => Serves(d.payload, d.found)
    case Ignored(why) => Justified(why, d.payload, d.found)
  }

  /** The delivery that counted, and that a row says of its event what it found. */
  predicate Wrote(s: State, k: nat, id: Id) {
    && k < |s.deliveries| && s.deliveries[k].id == id && s.deliveries[k].stage == Answered(false)
    && id in s.inbox && RowFits(s.inbox[id], s.deliveries[k])
  }

  ghost predicate AllExplained(s: State) {
    && (forall k :: 0 <= k < |s.deliveries| ==> Explained(s.deliveries[k]))
    && (forall id :: id in s.inbox ==> exists k: nat :: Wrote(s, k, id))
  }

  ghost predicate Inv(s: State) { Locked(s) && Once(s) && CountedOnce(s) && AllExplained(s) }

  lemma {:induction false} CountedGoes(deliveries: seq<Delivery>, k: nat, d: Delivery, id: Id)
    requires k < |deliveries| && !deliveries[k].stage.Answered? && d.id == deliveries[k].id
    ensures Counted(deliveries[k := d], id)
         == Counted(deliveries, id) + if d.id == id && d.stage == Answered(false) then 1 else 0
  {
    var n := |deliveries| - 1;
    var after := deliveries[k := d];
    if k == n {
      assert after[..n] == deliveries[..n];
    } else {
      CountedGoes(deliveries[..n], k, d, id);
      assert after[..n] == deliveries[..n][k := d];
    }
  }

  lemma CountedMore(deliveries: seq<Delivery>, id: Id, payload: Payload)
    ensures forall x :: Counted(deliveries + [Delivery(id, payload, None, Begun)], x) == Counted(deliveries, x)
  {
    assert (deliveries + [Delivery(id, payload, None, Begun)])[..|deliveries|] == deliveries;
  }

  /** A handler moved on: its delivery is another now, of the same event. */
  predicate Moved(s: State, k: nat, d: Delivery, t: State) {
    k < |s.deliveries| && d.id == s.deliveries[k].id && t.deliveries == s.deliveries[k := d]
  }

  /** A handler that moves on without counting changes no count, one that counts adds the one row of its event. */
  lemma GoesCounts(s: State, k: nat, d: Delivery, t: State)
    requires CountedOnce(s) && Moved(s, k, d, t) && !s.deliveries[k].stage.Answered?
    requires if d.stage == Answered(false) then d.id !in s.inbox && t.inbox.Keys == s.inbox.Keys + {d.id}
             else t.inbox == s.inbox
    ensures CountedOnce(t)
  {
    forall id ensures Counted(t.deliveries, id) == if id in t.inbox then 1 else 0 {
      CountedGoes(s.deliveries, k, d, id);
      assert id in t.inbox <==> id in t.inbox.Keys;
    }
  }

  lemma StepCounts(s: State, a: Action)
    requires Locked(s) && CountedOnce(s) && Enabled(s, a)
    ensures CountedOnce(Step(s, a))
  {
    var t := Step(s, a);
    if a.Deliver? {
      CountedMore(s.deliveries, a.id, a.payload);
    } else {
      GoesCounts(s, a.k, t.deliveries[a.k], t);
    }
  }

  lemma GoesLocked(s: State, k: nat, d: Delivery, t: State)
    requires Locked(s) && Moved(s, k, d, t)
    requires InTransaction(s.deliveries[k]) <==> InTransaction(d)
    requires t.claims == s.claims
    requires t.inbox == s.inbox || (Free(s, k) && t.inbox.Keys == s.inbox.Keys + {d.id})
    ensures Locked(t)
  {
    forall id | id in t.claims ensures id !in t.inbox && Holds(t, t.claims[id], id) {
      assert Holds(s, s.claims[id], id);
      assert id !in t.inbox.Keys;
    }
  }

  lemma TransactionLocked(s: State, k: nat, d: Delivery, t: State)
    requires Locked(s) && Moved(s, k, d, t)
    requires InTransaction(s.deliveries[k]) && !InTransaction(d)
    requires t.claims == s.claims - {d.id}
    requires t.inbox == s.inbox || t.inbox == s.inbox[d.id := Effect]
    ensures Locked(t)
  {
    forall id | id in t.claims ensures id !in t.inbox && Holds(t, t.claims[id], id) {
      assert Holds(s, s.claims[id], id);
    }
  }

  lemma ClaimLocked(s: State, k: nat, d: Delivery, t: State)
    requires Locked(s) && Moved(s, k, d, t) && At(s, k, ToApply) && Free(s, k) && d.id !in s.inbox && d.stage == Claimed
    requires t.claims == s.claims[d.id := k] && t.inbox == s.inbox
    ensures Locked(t)
  {
    forall id | id in t.claims ensures id !in t.inbox && Holds(t, t.claims[id], id) {
      if id != d.id { assert Holds(s, s.claims[id], id); }
    }
  }

  lemma DeliverLocked(s: State, id: Id, payload: Payload)
    requires Locked(s)
    ensures Locked(Step(s, Deliver(id, payload)))
  {
    forall x | x in s.claims ensures Holds(Step(s, Deliver(id, payload)), s.claims[x], x) {
      assert Holds(s, s.claims[x], x);
    }
  }

  lemma StepLocked(s: State, a: Action)
    requires Locked(s) && Enabled(s, a)
    ensures Locked(Step(s, a))
  {
    if a.Deliver? {
      DeliverLocked(s, a.id, a.payload);
    } else {
      var t := Step(s, a);
      var d := t.deliveries[a.k];
      if InTransaction(s.deliveries[a.k]) && !InTransaction(d) {
        TransactionLocked(s, a.k, d, t);
      } else if d.stage.Claimed? {
        ClaimLocked(s, a.k, d, t);
      } else {
        GoesLocked(s, a.k, d, t);
      }
    }
  }

  lemma StepOnce(s: State, a: Action)
    requires Locked(s) && Once(s) && Enabled(s, a)
    ensures Once(Step(s, a))
  {
    if a.Commit? {
      var id := s.deliveries[a.k].id;
      assert id in s.claims && id !in s.effects;
      assert forall x :: x in s.effects + [id] <==> x in s.effects || x == id;
    }
  }

  lemma StepKeeps(s: State, a: Action)
    requires Inv(s) && Enabled(s, a)
    ensures Inv(Step(s, a))
  {
    StepLocked(s, a);
    StepOnce(s, a);
    StepCounts(s, a);
    StepExplained(s, a, Step(s, a));
  }

  /** Only an answer that counts writes a row, and it fits what its handler found. */
  lemma GoesExplained(s: State, k: nat, d: Delivery, t: State)
    requires AllExplained(s) && Moved(s, k, d, t) && Explained(d) && !s.deliveries[k].stage.Answered?
    requires t.inbox == s.inbox || (Wrote(t, k, d.id) && t.inbox == s.inbox[d.id := t.inbox[d.id]])
    ensures AllExplained(t)
  {
    forall id | id in t.inbox ensures exists j: nat :: Wrote(t, j, id) {
      if t.inbox == s.inbox || id != d.id {
        var j: nat :| Wrote(s, j, id);
        assert Wrote(t, j, id);
      }
    }
  }

  lemma StepExplained(s: State, a: Action, t: State)
    requires AllExplained(s) && Enabled(s, a) && t == Step(s, a)
    ensures AllExplained(t)
  {
    if a.Deliver? {
      forall id | id in t.inbox ensures exists j: nat :: Wrote(t, j, id) {
        var j: nat :| Wrote(s, j, id);
        assert Wrote(t, j, id);
      }
    } else {
      MoveExplained(s, a, t, t.deliveries[a.k]);
      GoesExplained(s, a.k, t.deliveries[a.k], t);
    }
  }

  lemma MoveExplained(s: State, a: Action, t: State, d: Delivery)
    requires Enabled(s, a) && !a.Deliver? && t == Step(s, a) && d == t.deliveries[a.k] && Explained(s.deliveries[a.k])
    ensures Moved(s, a.k, d, t) && Explained(d) && !s.deliveries[a.k].stage.Answered?
    ensures t.inbox == s.inbox || (d.id in t.inbox && t.inbox == s.inbox[d.id := t.inbox[d.id]] && Wrote(t, a.k, d.id))
  {
  }

  ghost predicate Runs(s: State, actions: seq<Action>)
    decreases |actions|
  {
    actions == [] || (Enabled(s, actions[0]) && Runs(Step(s, actions[0]), actions[1..]))
  }

  function After(s: State, actions: seq<Action>): State
    requires Runs(s, actions)
    decreases |actions|
  {
    if actions == [] then s else After(Step(s, actions[0]), actions[1..])
  }

  lemma {:induction false} RunKeeps(s: State, actions: seq<Action>)
    requires Inv(s) && Runs(s, actions)
    ensures Inv(After(s, actions))
    decreases |actions|
  {
    if actions != [] {
      StepKeeps(s, actions[0]);
      RunKeeps(Step(s, actions[0]), actions[1..]);
    }
  }

  /**
   However deliveries of the same event overlap, repeat and fail: its effect commits at most once, the inbox has a row
   of
   it exactly when its effect or its ignore committed, and exactly one delivery was answered as the one that did it.
   */
  lemma EffectivelyOnce(actions: seq<Action>)
    requires Runs(START, actions)
    ensures var s := After(START, actions); Once(s) && CountedOnce(s)
  {
    RunKeeps(START, actions);
  }

  /** The deliveries of a run, in order. */
  function Delivered(past: seq<Action>): seq<Action> {
    if past == [] then []
    else
      var a := past[|past| - 1];
      Delivered(past[..|past| - 1]) + if a.Deliver? then [a] else []
  }

  /** Delivery k of a state is delivery k of the run, and its row is the one the run answered it. */
  ghost predicate FromRun(past: seq<Action>, s: State) {
    && |Delivered(past)| == |s.deliveries|
    && forall k: nat :: k < |s.deliveries| ==> FromRunAt(past, s, k)
  }

  ghost predicate FromRunAt(past: seq<Action>, s: State, k: nat)
    requires k < |s.deliveries| == |Delivered(past)|
  {
    var d := s.deliveries[k];
    Delivered(past)[k] == Deliver(d.id, d.payload) && (d.found.Some? ==> Find(k, d.found.value) in past)
  }

  lemma StepFromRun(past: seq<Action>, s: State, a: Action)
    requires FromRun(past, s) && Enabled(s, a)
    ensures FromRun(past + [a], Step(s, a))
  {
    var more, t := past + [a], Step(s, a);
    assert more[..|past|] == past;
    forall k: nat | k < |t.deliveries| ensures FromRunAt(more, t, k) {
      if k < |s.deliveries| { assert FromRunAt(past, s, k); }
    }
  }

  lemma {:induction false} RunFromRun(past: seq<Action>, s: State, actions: seq<Action>)
    requires FromRun(past, s) && Runs(s, actions)
    ensures FromRun(past + actions, After(s, actions))
    decreases |actions|
  {
    if actions == [] {
      assert past + actions == past;
    } else {
      StepFromRun(past, s, actions[0]);
      RunFromRun(past + [actions[0]], Step(s, actions[0]), actions[1..]);
      assert past + [actions[0]] + actions[1..] == past + actions;
    }
  }

  /** In a run a delivery brought this payload and, when it looked for the row of its job, found this. */
  ghost predicate Saw(actions: seq<Action>, k: nat, id: Id, payload: Payload, found: Option<Option<Task>>) {
    && k < |Delivered(actions)| && Delivered(actions)[k] == Deliver(id, payload)
    && (found.Some? ==> Find(k, found.value) in actions)
  }

  /**
   A row is there because of what the delivery that counted brought and found: an effect only for an event of a job that
   has a row, asked for by its subject and in its project (or by and in none); an ignore only for the reason it gives.
   */
  lemma RowsJustified(actions: seq<Action>, id: Id)
    requires Runs(START, actions) && id in After(START, actions).inbox
    ensures exists k: nat, payload, found :: Saw(actions, k, id, payload, found)
              && k < |After(START, actions).deliveries| && After(START, actions).deliveries[k].stage == Answered(false)
              && (After(START, actions).inbox[id].Effect? ==> Serves(payload, found))
              && (After(START, actions).inbox[id].Ignored?
                ==> Justified(After(START, actions).inbox[id].why, payload, found))
  {
    var s := After(START, actions);
    RunKeeps(START, actions);
    RunFromRun([], START, actions);
    assert [] + actions == actions;
    var k: nat :| Wrote(s, k, id);
    var d := s.deliveries[k];
    assert FromRunAt(actions, s, k);
    assert Saw(actions, k, id, d.payload, d.found);
  }

  /** The steps of a handler that is not disturbed, with what it finds. */
  function OwnSteps(k: nat, task: Option<Task>, applies: bool): seq<Action> {
    [Look(k), Find(k, task)] + if applies then [InsertClaim(k), ApplyEvent(k), Commit(k)] else [InsertIgnore(k)]
  }

  /**
   An event that serves takes effect: from any state in which its id is in neither inbox nor claims, the handler's own
   steps commit its effect, once, and answer so; one that does not is recorded as ignored, for its reason.
   */
  lemma OwnStepsServe(s: State, k: nat, task: Option<Task>, id: Id, payload: Payload)
    requires Inv(s) && At(s, k, Begun) && s.deliveries[k].id == id && s.deliveries[k].payload == payload
    requires id !in s.inbox && id !in s.claims && Serves(payload, Some(task))
    ensures Runs(s, OwnSteps(k, task, true))
    ensures var t := After(s, OwnSteps(k, task, true));
            t.effects == s.effects + [id] && t.inbox == s.inbox[id := Effect] && t.claims == s.claims
                && At(t, k, Answered(false))
  {
    var s1 := Step(s, Look(k));
    var s2 := Step(s1, Find(k, task));
    var s3 := Step(s2, InsertClaim(k));
    var s4 := Step(s3, ApplyEvent(k));
    RunTwo(s, Look(k), Find(k, task), OwnSteps(k, task, true), [InsertClaim(k), ApplyEvent(k), Commit(k)]);
    RunThree(s2, InsertClaim(k), ApplyEvent(k), Commit(k));
  }

  lemma OwnStepsIgnore(s: State, k: nat, task: Option<Task>, id: Id, payload: Payload, why: Why)
    requires Inv(s) && At(s, k, Begun) && s.deliveries[k].id == id && s.deliveries[k].payload == payload
    requires id !in s.inbox && id !in s.claims && payload.JobEvent? && Justified(why, payload, Some(task))
    ensures Runs(s, OwnSteps(k, task, false))
    ensures var t := After(s, OwnSteps(k, task, false));
            t.effects == s.effects && t.inbox == s.inbox[id := Ignored(why)] && t.claims == s.claims
                && At(t, k, Answered(false))
  {
    var s1 := Step(s, Look(k));
    var s2 := Step(s1, Find(k, task));
    RunTwo(s, Look(k), Find(k, task), OwnSteps(k, task, false), [InsertIgnore(k)]);
    RunOne(s2, InsertIgnore(k));
  }

  /** A payload that names no job of ours is recorded without a look for one. */
  lemma OwnStepsMalformed(s: State, k: nat, id: Id)
    requires Inv(s) && At(s, k, Begun) && s.deliveries[k].id == id && s.deliveries[k].payload.Malformed?
    requires id !in s.inbox && id !in s.claims
    ensures Runs(s, [Look(k), InsertIgnore(k)])
    ensures var t := After(s, [Look(k), InsertIgnore(k)]);
            t.effects == s.effects && t.inbox == s.inbox[id := Ignored(BadPayload)] && At(t, k, Answered(false))
  {
    RunTwo(s, Look(k), InsertIgnore(k), [Look(k), InsertIgnore(k)], []);
  }

  lemma RunOne(s: State, a: Action)
    requires Enabled(s, a)
    ensures Runs(s, [a]) && After(s, [a]) == Step(s, a)
  {
    assert [a][1..] == [];
  }

  lemma RunTwo(s: State, a: Action, b: Action, all: seq<Action>, rest: seq<Action>)
    requires all == [a, b] + rest && Enabled(s, a) && Enabled(Step(s, a), b)
    ensures Runs(s, all) <==> Runs(Step(Step(s, a), b), rest)
    ensures Runs(s, all) ==> After(s, all) == After(Step(Step(s, a), b), rest)
  {
    assert all[1..] == [b] + rest && ([b] + rest)[1..] == rest;
  }

  lemma RunThree(s: State, a: Action, b: Action, c: Action)
    requires Enabled(s, a) && Enabled(Step(s, a), b) && Enabled(Step(Step(s, a), b), c)
    ensures Runs(s, [a, b, c]) && After(s, [a, b, c]) == Step(Step(Step(s, a), b), c)
  {
    RunTwo(s, a, b, [a, b, c], [c]);
    RunOne(Step(Step(s, a), b), c);
  }

  /** A handler that started when the event was in the inbox already. */
  predicate Late(s: State, k: nat, id: Id) {
    && k < |s.deliveries| && s.deliveries[k].id == id && id in s.inbox
    && (s.deliveries[k].stage.Begun? || s.deliveries[k].stage.ToIgnore? || s.deliveries[k].stage == Answered(true)
      || s.deliveries[k].stage.Failed?)
  }

  /**
   Every later delivery answers duplicate, or fails, and has no effect; and what the inbox says of the event stays.
   */
  lemma {:induction false} LaterIsDuplicate(s: State, actions: seq<Action>, k: nat, id: Id)
    requires Inv(s) && Runs(s, actions) && Late(s, k, id)
    ensures Late(After(s, actions), k, id) && After(s, actions).inbox[id] == s.inbox[id]
    decreases |actions|
  {
    if actions != [] {
      StepKeeps(s, actions[0]);
      StepLate(s, actions[0], k, id);
      LaterIsDuplicate(Step(s, actions[0]), actions[1..], k, id);
    }
  }

  lemma StepLate(s: State, a: Action, k: nat, id: Id)
    requires Inv(s) && Enabled(s, a) && Late(s, k, id)
    ensures Late(Step(s, a), k, id) && Step(s, a).inbox[id] == s.inbox[id]
  {
  }

  /** Nobody waits for ever: a delivery in flight can go on, or the one that holds its event's id can. */
  lemma NeverStuck(s: State, k: nat)
    requires Inv(s) && InFlight(s, k)
    ensures exists a ::
        Enabled(s, a) && a in MovesOf(k)
            + (if s.deliveries[k].id in s.claims then MovesOf(s.claims[s.deliveries[k].id]) else {})
  {
    var id, stage := s.deliveries[k].id, s.deliveries[k].stage;
    if stage.Begun? {
      assert Enabled(s, Look(k));
    } else if stage.Looked? {
      assert Explained(s.deliveries[k]);
      assert Enabled(s, Find(k, None));
    } else if stage.Claimed? || stage.Applied? {
      assert Enabled(s, if stage.Claimed? then ApplyEvent(k) else Commit(k));
    } else if id in s.claims {
      var h := s.claims[id];
      assert Holds(s, h, id);
      assert Enabled(s, if s.deliveries[h].stage.Claimed? then ApplyEvent(h) else Commit(h));
    } else {
      assert Enabled(s, if stage.ToApply? then InsertClaim(k) else InsertIgnore(k));
    }
  }

  /** The steps of one delivery that are not failures. */
  function MovesOf(k: nat): set<Action> {
    {Look(k), Find(k, None), InsertIgnore(k), InsertClaim(k), ApplyEvent(k), Commit(k)}
  }
}
