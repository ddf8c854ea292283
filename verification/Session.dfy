/**
 sandbox/session.js `Sandbox`: requests to a sandbox and their answers over one pipe, and the wipe. Frames come from
 inside and are not trusted: each is matched to a request or dropped. Any interleaving of the actions is a run.
 */
module Session {
  import opened Prelude

  datatype Life = Running | Wiping | Wiped

  /** How far the wipe is: the process is being killed, then everything is given back, then it is over. */
  datatype Phase = NotAsked | Killing | Cleaning | Over

  datatype Outcome = Answered(payload: int) | Rejected

  /** The end of a request. */
  datatype Settled = Settled(id: nat, outcome: Outcome)

  /** A frame from inside; `id` is None when it names no request number. */
  datatype Frame =
    | Ready
    | Cdp(message: int)
    | CdpClosed
    | Out(id: Option<int>, data: seq<int>)
    | Final(id: Option<int>, payload: int)
    | Unknown(id: Option<int>)

  /** A pending request; `listens` is a command whose output is collected, `got` what came of it. */
  datatype Want = Want(listens: bool, got: seq<int>)

  datatype State = State(life: Life, phase: Phase, nextId: nat, pending: map<nat, Want>, waiting: bool, browser: bool,
                         settled: seq<Settled>, refused: nat, cleanups: nat, written: seq<nat>)

  datatype Action =
    | Request(listens: bool)
    | OnFrame(f: Frame)
    | Wipe
    | Killed        // the process is gone: what is pending is rejected and the cleanup begins
    | CleanedUp

  const START := State(Running, NotAsked, 1, map[], false, false, [], 0, 0, [])

  // ---------------------------------------------------------------- the steps

  function Rejections(ids: seq<nat>): seq<Settled> {
    seq(|ids|, i requires 0 <= i < |ids| => Settled(ids[i], Rejected))
  }

  /** The requests that are pending, in the order they were made. */
  function PendingOf(s: State, n: nat): (r: seq<nat>)
    ensures forall id :: id in r <==> id in s.pending && id < n
    ensures forall i :: 0 <= i < |r| ==> r[i] in s.pending && r[i] < n
    ensures forall i, j :: 0 <= i < j < |r| ==> r[i] < r[j]
  {
    if n == 0 then [] else PendingOf(s, n - 1) + if n - 1 in s.pending then [n - 1] else []
  }

  /** The pending request a frame names. */
  function Named(s: State, id: Option<int>): Option<nat> {
    if id.Some? && id.value >= 0 && id.value in s.pending then Some(id.value) else None
  }

  /** `_frame` */
  function Take(s: State, f: Frame): State {
    match f
    case Ready => s.(waiting := false)
    case Cdp(_) => s
    case CdpClosed => s.(browser := false)
    case Out(id, data) =>
      var p := Named(s, id);
      if p.None? || !s.pending[p.value].listens then s
      else s.(pending := s.pending[p.value := s.pending[p.value].(got := s.pending[p.value].got + data)])
    case Final(id, payload) =>
      var p := Named(s, id);
      if p.None? then s else s.(pending := s.pending - {p.value},
                               settled := s.settled + [Settled(p.value, Answered(payload))])
    case Unknown(_) => s
  }

  predicate Enabled(s: State, a: Action) {
    match a
    case Request(_) => true
    case OnFrame(_) => true
    case Wipe => true
    case Killed => s.phase.Killing?
    case CleanedUp => s.phase.Cleaning?
  }

  function Step(s: State, a: Action): State
    requires Enabled(s, a)
  {
    match a
    case Request(listens) =>
      if !s.life.Running? then s.(refused := s.refused + 1)
      else s.(nextId := s.nextId + 1, pending := s.pending[s.nextId := Want(listens, [])],
                  written := s.written + [s.nextId])
    case OnFrame(f) => Take(s, f)
    case Wipe => if s.phase.NotAsked? then s.(life := Wiping, phase := Killing, browser := false) else s
    case Killed =>
      s.(phase := Cleaning, settled := s.settled + Rejections(PendingOf(s, s.nextId)),
         pending := map[], cleanups := s.cleanups + 1)
    case CleanedUp => s.(phase := Over, life := Wiped)
  }

  // ---------------------------------------------------------------- the class

  class Sandbox {
    var life: Life
    var phase: Phase
    var nextId: nat
    var pending: map<nat, Want>
    var waiting: bool
    var browser: bool
    var settled: seq<Settled>
    var refused: nat
    var cleanups: nat
    var written: seq<nat>

    function View(): State
      reads this
    {
      State(life, phase, nextId, pending, waiting, browser, settled, refused, cleanups, written)
    }

    constructor ()
      ensures View() == START
    {
      life, phase, nextId, pending, waiting, browser := Running, NotAsked, 1, map[], false, false;
      settled, refused, cleanups, written := [], 0, 0, [];
    }

    /** `_request`: None when the sandbox does not run any more. */
    method Request(listens: bool) returns (id: Option<nat>)
      modifies `nextId, `pending, `written, `refused
      ensures View() == Step(old(View()), Action.Request(listens))
      ensures id == if old(life).Running? then Some(old(nextId)) else None
    {
      if !life.Running? {
        refused := refused + 1;
        return None;
      }
      id := Some(nextId);
      nextId := nextId + 1;
      pending := pending[id.value := Want(listens, [])];
      written := written + [id.value];
    }

    /** What came out of the sandbox only ever settles or feeds a request that is pending. */
    method OnFrame(f: Frame)
      modifies `waiting, `browser, `pending, `settled
      ensures View() == Step(old(View()), Action.OnFrame(f))
    {
      if f.Ready? { waiting := false; return; }
      if f.Cdp? { return; }
      if f.CdpClosed? { browser := false; return; }
      if f.id.None? || f.id.value < 0 || f.id.value !in pending { return; }
      var id: nat := f.id.value;
      if f.Out? && pending[id].listens {
        pending := pending[id := pending[id].(got := pending[id].got + f.data)];
      } else if f.Final? {
        pending := pending - {id};
        settled := settled + [Settled(id, Answered(f.payload))];
      }
    }

    /** The part of the wipe before it waits. */
    method Wipe()
      modifies `life, `phase, `browser
      ensures View() == Step(old(View()), Action.Wipe)
    {
      if !phase.NotAsked? { return; }
      life, phase, browser := Wiping, Killing, false;
    }

    /** The process is gone: whoever still waits is told, in the order they asked. */
    method OnKilled()
      requires phase.Killing?
      modifies `phase, `pending, `settled, `cleanups
      ensures View() == Step(old(View()), Killed)
    {
      ghost var s := View();
      for id := 0 to nextId
        invariant settled == old(settled) + Rejections(PendingOf(s, id))
        invariant pending == s.pending && phase == s.phase && cleanups == s.cleanups
      {
        RejectedMore(old(settled), s, id);
        if id in pending { settled := settled + [Settled(id, Rejected)]; }
      }
      pending := map[];
      phase, cleanups := Cleaning, cleanups + 1;
    }

    method OnCleanedUp()
      requires phase.Cleaning?
      modifies `phase, `life
      ensures View() == Step(old(View()), CleanedUp)
    {
      phase, life := Over, Wiped;
    }
  }

  lemma RejectedMore(before: seq<Settled>, s: State, id: nat)
    ensures before + Rejections(PendingOf(s, id + 1)) == before + Rejections(PendingOf(s, id)) + if id in s.pending
        then [Settled(id, Rejected)] else []
  {
    if id in s.pending {
      assert Rejections(PendingOf(s, id) + [id]) == Rejections(PendingOf(s, id)) + [Settled(id, Rejected)];
    } else {
      assert PendingOf(s, id + 1) == PendingOf(s, id);
    }
  }

  // ---------------------------------------------------------------- what every run keeps

  predicate Ended(s: State, id: nat) { exists i :: 0 <= i < |s.settled| && s.settled[i].id == id }

  /** Every request made is pending or has ended, never both, and has ended at most once. */
  ghost predicate Accounted(s: State) {
    && (forall id :: id in s.pending ==> 1 <= id < s.nextId)
    && (forall i :: 0 <= i < |s.settled| ==> 1 <= s.settled[i].id < s.nextId && s.settled[i].id !in s.pending)
    && (forall i, j :: 0 <= i < j < |s.settled| ==> s.settled[i].id != s.settled[j].id)
    && (forall id: nat :: 1 <= id < s.nextId && id !in s.pending ==> Ended(s, id))
  }

  /** No number was ever written twice. */
  ghost predicate Numbered(s: State) {
    s.nextId >= 1 && |s.written| == s.nextId - 1 && forall i :: 0 <= i < |s.written| ==> s.written[i] == i + 1
  }

  /** The life cycle: one way, one cleanup, and nothing pending behind it. */
  ghost predicate Lived(s: State) {
    && (s.life.Running? <==> s.phase.NotAsked?) && (s.life.Wiped? <==> s.phase.Over?)
    && s.cleanups == (if s.phase.Cleaning? || s.phase.Over? then 1 else 0)
    && (s.phase.Cleaning? || s.phase.Over? ==> s.pending == map[])
  }

  ghost predicate Inv(s: State) { Accounted(s) && Numbered(s) && Lived(s) }

  lemma SettleOne(s: State, id: nat, o: Outcome, t: State)
    requires Accounted(s) && id in s.pending
    requires t.pending == s.pending - {id} && t.settled == s.settled + [Settled(id, o)] && t.nextId == s.nextId
    ensures Accounted(t)
  {
    forall k: nat | 1 <= k < t.nextId && k !in t.pending ensures Ended(t, k) {
      if k == id {
        assert t.settled[|s.settled|].id == k;
      } else {
        var i :| 0 <= i < |s.settled| && s.settled[i].id == k;
        assert t.settled[i].id == k;
      }
    }
  }

  lemma RejectAll(s: State, t: State)
    requires Accounted(s) && t.pending == map[] && t.nextId == s.nextId
    requires t.settled == s.settled + Rejections(PendingOf(s, s.nextId))
    ensures Accounted(t)
  {
    RejectedOnce(s.settled, PendingOf(s, s.nextId), t.settled, s.nextId);
    forall k: nat | 1 <= k < t.nextId ensures Ended(t, k) {
      RejectedEnds(s, t, k);
    }
  }

  lemma RejectedOnce(settled: seq<Settled>, ids: seq<nat>, all: seq<Settled>, n: nat)
    requires all == settled + Rejections(ids)
    requires forall i :: 0 <= i < |settled| ==> 1 <= settled[i].id < n && settled[i].id !in ids
    requires forall i, j :: 0 <= i < j < |settled| ==> settled[i].id != settled[j].id
    requires forall i :: 0 <= i < |ids| ==> 1 <= ids[i] < n
    requires forall i, j :: 0 <= i < j < |ids| ==> ids[i] < ids[j]
    ensures forall i :: 0 <= i < |all| ==> 1 <= all[i].id < n
    ensures forall i, j :: 0 <= i < j < |all| ==> all[i].id != all[j].id
  {
    assert forall i :: 0 <= i < |settled| ==> all[i] == settled[i];
    assert forall i :: |settled| <= i < |all| ==> all[i].id == ids[i - |settled|];
  }

  lemma RejectedEnds(s: State, t: State, k: nat)
    requires Accounted(s) && 1 <= k < s.nextId && t.settled == s.settled + Rejections(PendingOf(s, s.nextId))
    ensures Ended(t, k)
  {
    var ids := PendingOf(s, s.nextId);
    if k in s.pending {
      assert k in ids;
      var i :| 0 <= i < |ids| && ids[i] == k;
      assert t.settled[|s.settled| + i].id == k;
    } else {
      assert Ended(s, k);
      var i :| 0 <= i < |s.settled| && s.settled[i].id == k;
      assert t.settled[i].id == k;
    }
  }

  lemma RequestAccounted(s: State, listens: bool, t: State)
    requires Accounted(s) && s.nextId >= 1 && t.pending == s.pending[s.nextId := Want(listens, [])]
    requires t.settled == s.settled && t.nextId == s.nextId + 1
    ensures Accounted(t)
  {
    forall k: nat | 1 <= k < t.nextId && k !in t.pending ensures Ended(t, k) {
      var i :| 0 <= i < |s.settled| && s.settled[i].id == k;
      assert t.settled[i].id == k;
    }
  }

  lemma SameKeys(s: State, t: State)
    requires Accounted(s) && t.pending.Keys == s.pending.Keys && t.settled == s.settled && t.nextId == s.nextId
    ensures Accounted(t)
  {
    forall k: nat | 1 <= k < t.nextId && k !in t.pending ensures Ended(t, k) {
      assert k !in s.pending;
      var i :| 0 <= i < |s.settled| && s.settled[i].id == k;
      assert t.settled[i].id == k;
    }
  }

  lemma FrameKeeps(s: State, f: Frame)
    requires Inv(s)
    ensures Inv(Take(s, f))
  {
    if f.Final? && Named(s, f.id).Some? {
      SettleOne(s, Named(s, f.id).value, Answered(f.payload), Take(s, f));
    } else {
      assert Take(s, f).pending.Keys == s.pending.Keys;
      SameKeys(s, Take(s, f));
    }
  }

  lemma StepKeeps(s: State, a: Action)
    requires Inv(s) && Enabled(s, a)
    ensures Inv(Step(s, a))
  {
    match a
    case Request(listens) =>
      if s.life.Running? { RequestAccounted(s, listens, Step(s, a)); } else { SameKeys(s, Step(s, a)); }
    case OnFrame(f) => FrameKeeps(s, f);
    case Wipe => SameKeys(s, Step(s, a));
    case Killed => RejectAll(s, Step(s, a));
    case CleanedUp => SameKeys(s, Step(s, a));
  }

  ghost predicate Runs(s: State, actions: seq<Action>)
    decreases |actions|
  {
    actions == [] || (Enabled(s, actions[0]) && Runs(Step(s, actions[0]), actions[1..]))
  }

  function After(s: State, actions: seq<Action>): State
    requires Runs(s, actions)
    decreases |actions|
  {
    if actions == [] then s else After(Step(s, actions[0]), actions[1..])
  }

  function Rank(l: Life): nat { match l case Running => 0 case Wiping => 1 case Wiped => 2 }

  lemma {:induction false} RunKeeps(s: State, actions: seq<Action>)
    requires Inv(s) && Runs(s, actions)
    ensures Inv(After(s, actions))
    decreases |actions|
  {
    if actions != [] {
      StepKeeps(s, actions[0]);
      RunKeeps(Step(s, actions[0]), actions[1..]);
    }
  }

  lemma StepGrows(s: State, a: Action)
    requires Lived(s) && Enabled(s, a)
    ensures s.settled <= Step(s, a).settled && Rank(s.life) <= Rank(Step(s, a).life)
  {
  }

  lemma {:induction false} RunGrows(s: State, actions: seq<Action>)
    requires Inv(s) && Runs(s, actions)
    ensures s.settled <= After(s, actions).settled && Rank(s.life) <= Rank(After(s, actions).life)
    decreases |actions|
  {
    if actions != [] {
      StepKeeps(s, actions[0]);
      StepGrows(s, actions[0]);
      RunGrows(Step(s, actions[0]), actions[1..]);
    }
  }

  /**
   In every run each request has its own number, is pending or ended, and ends at most once; once the sandbox is wiped
   nothing is pending; it was cleaned up exactly once however many wipes were asked for.
   */
  lemma EveryRunKeeps(actions: seq<Action>)
    requires Runs(START, actions)
    ensures var s := After(START, actions);
            && Accounted(s) && Numbered(s)
            && s.cleanups <= 1 && (s.life.Wiped? ==> s.cleanups == 1 && s.pending == map[])
            && (s.life.Wiped? ==> |s.settled| == s.nextId - 1)
  {
    RunKeeps(START, actions);
    var s := After(START, actions);
    if s.life.Wiped? { AllEnded(s); }
  }

  function Requests(actions: seq<Action>): nat
    decreases |actions|
  {
    if actions == [] then 0 else (if actions[0].Request? then 1 else 0) + Requests(actions[1..])
  }

  /** Every request is either written to the sandbox, in turn, or refused: there is no third way. */
  lemma RequestsCounted(actions: seq<Action>, r: State)
    requires Runs(START, actions) && r == After(START, actions)
    ensures |r.written| + r.refused == Requests(actions)
    ensures r.life.Running? ==> r.refused == 0
  {
    RunCounts(START, actions, r);
  }

  lemma StepCounts(s: State, a: Action, t: State)
    requires Enabled(s, a) && t == Step(s, a)
    ensures |t.written| + t.refused == |s.written| + s.refused + if a.Request? then 1 else 0
    ensures s.life.Running? ==> t.refused == s.refused
    ensures t.life.Running? ==> s.life.Running? || !Lived(s)
  {
  }

  lemma {:induction false} RunCounts(s: State, actions: seq<Action>, r: State)
    requires Inv(s) && Runs(s, actions) && r == After(s, actions)
    ensures |r.written| + r.refused == |s.written| + s.refused + Requests(actions)
    ensures r.life.Running? ==> r.refused == s.refused
    decreases |actions|
  {
    if actions != [] {
      StepKeeps(s, actions[0]);
      StepCounts(s, actions[0], Step(s, actions[0]));
      RunCounts(Step(s, actions[0]), actions[1..], r);
      RunGrows(Step(s, actions[0]), actions[1..]);
    }
  }

  /** What has ended or was wiped stays so, and nothing is asked of a sandbox that does not run. */
  lemma NoWayBack(actions: seq<Action>, more: seq<Action>)
    requires Runs(START, actions) && Runs(After(START, actions), more)
    ensures var s, t := After(START, actions), After(After(START, actions), more);
            && Rank(s.life) <= Rank(t.life) && s.settled <= t.settled
            && (s.life.Wiped? ==> t.life.Wiped? && t.pending == map[] && t.settled == s.settled && t.nextId == s.nextId)
  {
    RunKeeps(START, actions);
    var s := After(START, actions);
    RunGrows(s, more);
    if s.life.Wiped? { WipedStays(s, more); }
  }

  lemma {:induction false} WipedStays(s: State, more: seq<Action>)
    requires Inv(s) && s.life.Wiped? && Runs(s, more)
    ensures var t := After(s, more);
        t.life.Wiped? && t.pending == map[] && t.settled == s.settled && t.nextId == s.nextId
    decreases |more|
  {
    if more != [] {
      StepKeeps(s, more[0]);
      WipedStays(Step(s, more[0]), more[1..]);
    }
  }

  function Ids(settled: seq<Settled>): set<nat> {
    if settled == [] then {} else Ids(settled[..|settled| - 1]) + {settled[|settled| - 1].id}
  }

  /** The numbers from 1 to below n. */
  function Below(n: nat): set<nat> { if n <= 1 then {} else Below(n - 1) + {n - 1} }

  /** When nothing is pending, every request has ended, once. */
  lemma AllEnded(s: State)
    requires Accounted(s) && s.pending == map[] && s.nextId >= 1
    ensures |s.settled| == s.nextId - 1
  {
    forall id: nat ensures id in Ids(s.settled) <==> id in Below(s.nextId) {
      IdsHas(s.settled, id);
      BelowHas(s.nextId, id);
      if 1 <= id < s.nextId { assert Ended(s, id); }
    }
    assert Ids(s.settled) == Below(s.nextId);
    DistinctIds(s.settled);
    BelowHas(s.nextId, 0);
  }

  lemma {:induction false} IdsHas(settled: seq<Settled>, id: nat)
    ensures id in Ids(settled) <==> exists i :: 0 <= i < |settled| && settled[i].id == id
  {
    if settled != [] {
      var n := |settled| - 1;
      IdsHas(settled[..n], id);
      if id in Ids(settled[..n]) {
        var i :| 0 <= i < n && settled[..n][i].id == id;
        assert settled[i].id == id;
      }
      if i :| 0 <= i < |settled| && settled[i].id == id { assert i < n ==> settled[..n][i].id == id; }
    }
  }

  lemma {:induction false} DistinctIds(settled: seq<Settled>)
    requires forall i, j :: 0 <= i < j < |settled| ==> settled[i].id != settled[j].id
    ensures |Ids(settled)| == |settled|
  {
    if settled != [] {
      var n := |settled| - 1;
      DistinctIds(settled[..n]);
      IdsHas(settled[..n], settled[n].id);
    }
  }

  lemma {:induction false} BelowHas(n: nat, id: nat)
    ensures id in Below(n) <==> 1 <= id < n
    ensures |Below(n)| == if n == 0 then 0 else n - 1
  {
    if n > 1 {
      BelowHas(n - 1, id);
      BelowHas(n - 1, n - 1);
    }
  }

  /** A request ends by a frame that names it, or by the wipe; no other frame touches it. */
  lemma OnlyOwnFrame(s: State, f: Frame, id: nat)
    requires id in s.pending && !((f.Final? || f.Out?) && f.id == Some(id))
    ensures id in Take(s, f).pending && Take(s, f).pending[id] == s.pending[id]
  {
  }

  // ---------------------------------------------------------------- what a request comes to

  /** What ends a request: the first final frame that names it, or the end of the process. */
  function Fate(actions: seq<Action>, id: nat): Option<Outcome>
    decreases |actions|
  {
    if actions == [] then None
    else
      match actions[0]
      case OnFrame(Final(Some(named), payload)) => if named == id then Some(Answered(payload))
        else Fate(actions[1..], id)
      case Killed => Some(Rejected)
      case _ => Fate(actions[1..], id)
  }

  /** The output frames that name a request bring, in order. */
  function OutputOf(actions: seq<Action>, id: nat): seq<int>
    decreases |actions|
  {
    if actions == [] then []
    else
      (match actions[0] case OnFrame(Out(Some(named), data)) => if named == id then data else [] case _ => [])
      + OutputOf(actions[1..], id)
  }

  /** A command's request with more output; another's request collects none. */
  function Heard(w: Want, data: seq<int>): Want { if w.listens && data != [] then w.(got := w.got + data) else w }

  lemma HeardTwice(w: Want, a: seq<int>, b: seq<int>)
    ensures Heard(Heard(w, a), b) == Heard(w, a + b)
  {
    assert w.got + a + b == w.got + (a + b);
    if a == [] { assert a + b == b; }
    if b == [] { assert a + b == a; }
  }

  /** A request has ended so, or is pending as it stands. */
  predicate CameTo(t: State, id: nat, fate: Option<Outcome>, want: Want) {
    if fate.Some? then Settled(id, fate.value) in t.settled else id in t.pending && t.pending[id] == want
  }

  /** One action, for a request that is pending. */
  lemma StepFate(s: State, a: Action, id: nat, t: State)
    requires Inv(s) && Enabled(s, a) && id in s.pending && t == Step(s, a)
    ensures CameTo(t, id, Fate([a], id), Heard(s.pending[id], OutputOf([a], id)))
  {
    assert [a][1..] == [] && OutputOf([], id) == [];
    if a.Killed? {
      RejectedAt(s, id);
    } else if a.OnFrame? {
      FrameFate(s, a.f, id);
    }
  }

  lemma RejectedAt(s: State, id: nat)
    requires Accounted(s) && id in s.pending
    ensures Settled(id, Rejected) in Rejections(PendingOf(s, s.nextId))
  {
    var ids := PendingOf(s, s.nextId);
    assert id in ids;
    var i :| 0 <= i < |ids| && ids[i] == id;
    assert Rejections(ids)[i] == Settled(id, Rejected);
  }

  lemma FrameFate(s: State, f: Frame, id: nat)
    requires id in s.pending
    ensures f.Final? && f.id == Some(id) ==> Settled(id, Answered(f.payload)) in Take(s, f).settled
    ensures !(f.Final? && f.id == Some(id)) ==>
      id in Take(s, f).pending
          && Take(s, f).pending[id] == Heard(s.pending[id], if f.Out? && f.id == Some(id) then f.data else [])
  {
  }

  /**
   A request is ended by the first final frame that names it, with that frame's payload, or rejected when the process is
   gone before; until then it is pending, and a command's has collected exactly the output that named it, in order.
   */
  lemma {:induction false} RequestFate(s: State, actions: seq<Action>, id: nat, t: State)
    requires Inv(s) && Runs(s, actions) && id in s.pending && t == After(s, actions)
    ensures CameTo(t, id, Fate(actions, id), Heard(s.pending[id], OutputOf(actions, id)))
    decreases |actions|
  {
    if actions != [] {
      var a, next := actions[0], Step(s, actions[0]);
      StepKeeps(s, a);
      StepFate(s, a, id, next);
      FateMore(actions, a, id);
      if Fate([a], id).Some? {
        RunGrows(next, actions[1..]);
      } else {
        RequestFate(next, actions[1..], id, t);
        HeardTwice(s.pending[id], OutputOf([a], id), OutputOf(actions[1..], id));
      }
    }
  }

  lemma FateMore(actions: seq<Action>, a: Action, id: nat)
    requires actions != [] && a == actions[0]
    ensures OutputOf(actions, id) == OutputOf([a], id) + OutputOf(actions[1..], id)
    ensures Fate([a], id).None? ==> Fate(actions, id) == Fate(actions[1..], id)
    ensures Fate([a], id).Some? ==> Fate(actions, id) == Fate([a], id)
  {
    assert [a][1..] == [];
  }

  /** So it is with every request made of a sandbox that runs. */
  lemma MadeAndEnded(actions: seq<Action>, listens: bool, more: seq<Action>, s: State, t: State)
    requires Runs(START, actions) && s == After(START, actions) && s.life.Running?
    requires Runs(Step(s, Request(listens)), more) && t == After(Step(s, Request(listens)), more)
    ensures CameTo(t, s.nextId, Fate(more, s.nextId), Want(listens, if listens then OutputOf(more, s.nextId) else []))
  {
    RunKeeps(START, actions);
    StepKeeps(s, Request(listens));
    RequestFate(Step(s, Request(listens)), more, s.nextId, t);
    assert [] + OutputOf(more, s.nextId) == OutputOf(more, s.nextId);
  }
}
