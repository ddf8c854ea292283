/**
 sandbox/browser.js `createCdp`: calls to the browser and waits for its events. A wait has a timer; the timer takes its
 own entry out of the list of waits by position, with JavaScript's `splice`, so it matters that the entry is there.
 */
module Cdp {
  import opened Prelude

  /** `session` is "" when the wait is for any session. */
  datatype Waiter = Waiter(uid: nat, name: string, session: string)

  datatype Message = Reply(id: nat) | Event(name: string, session: string) | Junk

  /** How a wait ended: by its event, or by its timer or the end of the browser. */
  datatype Waited = Waited(uid: nat, event: bool)

  /** `pending` are the calls in the order they were made; `settled` and `waited` record what has ended. */
  datatype State = State(nextId: nat, pending: seq<nat>, waiters: seq<Waiter>, armed: set<nat>, nextUid: nat,
        closed: bool,
                         settled: seq<nat>, waited: seq<Waited>)

  datatype Action = Call | WaitFor(name: string, session: string) | TimerFires(uid: nat) | OnMessage(m: Message) | Close

  const START := State(1, [], [], {}, 0, false, [], [])

  // ---------------------------------------------------------------- lists

  /** `waiters.indexOf(w)`, by identity. */
  function PlaceOf(waiters: seq<Waiter>, uid: nat): (i: int)
    ensures -1 <= i < |waiters|
    ensures if i >= 0 then waiters[i].uid == uid else forall k :: 0 <= k < |waiters| ==> waiters[k].uid != uid
  {
    if waiters == [] then -1
    else if waiters[0].uid == uid then 0
    else var i := PlaceOf(waiters[1..], uid); if i < 0 then -1 else i + 1
  }

  /** `splice(i, 1)`: JavaScript counts -1 from the end. */
  function Splice(waiters: seq<Waiter>, i: int): seq<Waiter>
    requires -1 <= i < |waiters|
  {
    if i >= 0 then waiters[..i] + waiters[i + 1..] else if waiters == [] then [] else waiters[..|waiters| - 1]
  }

  predicate Matches(w: Waiter, name: string, session: string) {
    w.name == name && (w.session == "" || w.session == session)
  }

  /** The waits an event ends, or those it does not. */
  function Chosen(waiters: seq<Waiter>, name: string, session: string, matching: bool): seq<Waiter> {
    if waiters == [] then []
    else
      var last := waiters[|waiters| - 1];
      Chosen(waiters[..|waiters| - 1], name, session, matching) + if Matches(last, name, session) == matching
          then [last] else []
  }

  function Uids(waiters: seq<Waiter>): set<nat> {
    if waiters == [] then {} else Uids(waiters[..|waiters| - 1]) + {waiters[|waiters| - 1].uid}
  }

  function Ends(waiters: seq<Waiter>, event: bool): seq<Waited> {
    if waiters == [] then [] else Ends(waiters[..|waiters| - 1], event) + [Waited(waiters[|waiters| - 1].uid, event)]
  }

  function Minus(ids: seq<nat>, id: nat): (r: seq<nat>)
    ensures forall k :: k in r <==> k in ids && k != id
  {
    if ids == [] then [] else Minus(ids[..|ids| - 1], id) + if ids[|ids| - 1] == id then [] else [ids[|ids| - 1]]
  }

  // ---------------------------------------------------------------- the steps

  predicate Enabled(s: State, a: Action) { a.TimerFires? ==> a.uid in s.armed }

  function Step(s: State, a: Action): State
    requires Enabled(s, a)
  {
    match a
    case Call => if s.closed then s else s.(nextId := s.nextId + 1, pending := s.pending + [s.nextId])
    case WaitFor(name, session) =>
      s.(waiters := s.waiters + [Waiter(s.nextUid, name, session)],
         armed := s.armed + {s.nextUid}, nextUid := s.nextUid + 1)
    case TimerFires(uid) =>
      s.(waiters := Splice(s.waiters, PlaceOf(s.waiters, uid)),
         armed := s.armed - {uid}, waited := s.waited + [Waited(uid, false)])
    case OnMessage(Reply(id)) => if id in s.pending
      then s.(pending := Minus(s.pending, id), settled := s.settled + [id]) else s
    case OnMessage(Event(name, session)) =>
      var gone := Chosen(s.waiters, name, session, true);
      s.(waiters := Chosen(s.waiters, name, session, false),
         armed := s.armed - Uids(gone), waited := s.waited + Ends(gone, true))
    case OnMessage(Junk) => s
    case Close =>
      s.(closed := true, settled := s.settled + s.pending, pending := [],
         waiters := [], armed := s.armed - Uids(s.waiters), waited := s.waited + Ends(s.waiters, false))
  }

  // ---------------------------------------------------------------- the client

  class Client {
    var nextId: nat
    var pending: seq<nat>
    var waiters: seq<Waiter>
    var armed: set<nat>
    var nextUid: nat
    var closed: bool
    var settled: seq<nat>
    var waited: seq<Waited>

    function View(): State
      reads this
    {
      State(nextId, pending, waiters, armed, nextUid, closed, settled, waited)
    }

    constructor ()
      ensures View() == START
    {
      nextId, pending, waiters, armed, nextUid, closed, settled, waited := 1, [], [], {}, 0, false, [], [];
    }

    /** None when the browser is gone. */
    method Call() returns (id: Option<nat>)
      modifies `nextId, `pending
      ensures View() == Step(old(View()), Action.Call)
      ensures id == if old(closed) then None else Some(old(nextId))
    {
      if closed { return None; }
      id := Some(nextId);
      pending := pending + [nextId];
      nextId := nextId + 1;
    }

    method WaitFor(name: string, session: string)
      modifies `waiters, `armed, `nextUid
      ensures View() == Step(old(View()), Action.WaitFor(name, session))
    {
      waiters := waiters + [Waiter(nextUid, name, session)];
      armed := armed + {nextUid};
      nextUid := nextUid + 1;
    }

    method OnTimer(uid: nat)
      requires uid in armed
      modifies `waiters, `armed, `waited
      ensures View() == Step(old(View()), TimerFires(uid))
    {
      armed := armed - {uid};
      waiters := Splice(waiters, PlaceOf(waiters, uid));
      waited := waited + [Waited(uid, false)];
    }

    /** `on('message')` */
    method OnMessage(m: Message)
      requires Listed(View())
      modifies `pending, `settled, `waiters, `armed, `waited
      ensures View() == Step(old(View()), Action.OnMessage(m))
    {
      if m.Reply? && m.id in pending {
        pending := Minus(pending, m.id);
        settled := settled + [m.id];
      } else if m.Event? {
        OnEvent(m.name, m.session);
      }
    }

    /** An event ends a wait: its timer is cleared, and it is taken from the list. */
    method End(w: Waiter)
      modifies `waiters, `armed, `waited
      ensures waiters == Splice(old(waiters), PlaceOf(old(waiters), w.uid))
      ensures armed == old(armed) - {w.uid} && waited == old(waited) + [Waited(w.uid, true)]
    {
      armed := armed - {w.uid};
      waiters := Splice(waiters, PlaceOf(waiters, w.uid));
      waited := waited + [Waited(w.uid, true)];
    }

    method OnEvent(name: string, session: string)
      requires Listed(View())
      modifies `waiters, `armed, `waited
      ensures View() == Step(old(View()), Action.OnMessage(Event(name, session)))
    {
      var copy := waiters;
      ghost var start := Half(waiters, armed, waited);
      FirstHalf(copy, name, session, start);
      for i := 0 to |copy|
        invariant Halfway(copy, i, name, session, start, Half(waiters, armed, waited))
      {
        HalfMore(copy, i, name, session, start, Half(waiters, armed, waited));
        if Matches(copy[i], name, session) { End(copy[i]); }
      }
      BothHalves(copy, name, session, start, Half(waiters, armed, waited));
    }

    method Close()
      modifies `closed, `settled, `pending, `waiters, `armed, `waited
      ensures View() == Step(old(View()), Action.Close)
    {
      closed := true;
      settled := settled + pending;
      pending := [];
      var list := waiters;
      waiters := [];
      for i := 0 to |list|
        invariant armed == old(armed) - Uids(list[..i]) && waited == old(waited) + Ends(list[..i], false)
        invariant closed && pending == [] && waiters == [] && settled == old(settled + pending)
      {
        assert list[..i + 1][..i] == list[..i];
        armed := armed - {list[i].uid};
        waited := waited + [Waited(list[i].uid, false)];
      }
      assert list[..|list|] == list;
    }
  }

  // ---------------------------------------------------------------- the list of waits

  ghost predicate Apart(waiters: seq<Waiter>) {
    forall i, j :: 0 <= i < j < |waiters| ==> waiters[i].uid != waiters[j].uid
  }

  lemma {:induction false} UidsHas(waiters: seq<Waiter>, uid: nat)
    ensures uid in Uids(waiters) <==> exists i :: 0 <= i < |waiters| && waiters[i].uid == uid
  {
    if waiters != [] {
      var n := |waiters| - 1;
      UidsHas(waiters[..n], uid);
      if uid in Uids(waiters[..n]) { var i :| 0 <= i < n && waiters[..n][i].uid == uid; assert waiters[i].uid == uid; }
      if i :| 0 <= i < |waiters| && waiters[i].uid == uid { assert i < n ==> waiters[..n][i].uid == uid; }
    }
  }

  /** Taking out an entry that is there takes out that one. */
  lemma SpliceTakes(a: seq<Waiter>, w: Waiter, b: seq<Waiter>)
    requires forall k :: 0 <= k < |a| ==> a[k].uid != w.uid
    ensures Splice(a + [w] + b, PlaceOf(a + [w] + b, w.uid)) == a + b
  {
    var all := a + [w] + b;
    var i := PlaceOf(all, w.uid);
    assert all[|a|].uid == w.uid;
    FirstIndex(all, w.uid, |a|);
  }

  lemma {:induction false} FirstIndex(waiters: seq<Waiter>, uid: nat, k: nat)
    requires k < |waiters| && waiters[k].uid == uid && forall j :: 0 <= j < k ==> waiters[j].uid != uid
    ensures PlaceOf(waiters, uid) == k
  {
    if k > 0 { FirstIndex(waiters[1..], uid, k - 1); }
  }

  lemma {:induction false} ChosenFrom(waiters: seq<Waiter>, name: string, session: string, matching: bool)
    ensures forall w ::
        w in Chosen(waiters, name, session, matching) <==> w in waiters && Matches(w, name, session) == matching
  {
    if waiters != [] {
      var n := |waiters| - 1;
      ChosenFrom(waiters[..n], name, session, matching);
      assert waiters == waiters[..n] + [waiters[n]];
    }
  }

  lemma {:induction false} ChosenApart(waiters: seq<Waiter>, name: string, session: string, matching: bool)
    requires Apart(waiters)
    ensures Apart(Chosen(waiters, name, session, matching))
  {
    if waiters != [] {
      var n := |waiters| - 1;
      ChosenApart(waiters[..n], name, session, matching);
      ChosenFrom(waiters[..n], name, session, matching);
      ApartFrom(waiters, Chosen(waiters[..n], name, session, matching));
    }
  }

  /** The last wait is none of those chosen before it. */
  lemma ApartFrom(waiters: seq<Waiter>, chosen: seq<Waiter>)
    requires Apart(waiters) && waiters != [] && forall w :: w in chosen ==> w in waiters[..|waiters| - 1]
    ensures forall i :: 0 <= i < |chosen| ==> chosen[i].uid != waiters[|waiters| - 1].uid
  {
    forall i | 0 <= i < |chosen| ensures chosen[i].uid != waiters[|waiters| - 1].uid {
      assert chosen[i] in chosen;
      var k :| 0 <= k < |waiters| - 1 && waiters[..|waiters| - 1][k] == chosen[i];
      assert waiters[k] == chosen[i];
    }
  }

  /** One turn of the loop over the waits an event may end. */
  lemma EventTurn(copy: seq<Waiter>, i: nat, name: string, session: string, kept: seq<Waiter>)
    requires i < |copy| && Apart(copy) && kept == Chosen(copy[..i], name, session, false)
    ensures kept + copy[i..] == kept + [copy[i]] + copy[i + 1..]
    ensures Splice(kept + copy[i..], PlaceOf(kept + copy[i..], copy[i].uid)) == kept + copy[i + 1..]
  {
    ChosenFrom(copy[..i], name, session, false);
    assert copy[i..] == [copy[i]] + copy[i + 1..];
    assert kept + copy[i..] == kept + [copy[i]] + copy[i + 1..];
    forall k | 0 <= k < |kept| ensures kept[k].uid != copy[i].uid {
      assert kept[k] in copy[..i];
      var j :| 0 <= j < i && copy[..i][j] == kept[k];
      assert copy[j] == kept[k];
    }
    SpliceTakes(kept, copy[i], copy[i + 1..]);
  }

  lemma ChosenMore(copy: seq<Waiter>, i: nat, name: string, session: string)
    requires i < |copy|
    ensures Chosen(copy[..i + 1], name, session, false)
         == Chosen(copy[..i], name, session, false) + if Matches(copy[i], name, session) then [] else [copy[i]]
    ensures Chosen(copy[..i + 1], name, session, true)
         == Chosen(copy[..i], name, session, true) + if Matches(copy[i], name, session) then [copy[i]] else []
  {
    assert copy[..i + 1][..i] == copy[..i];
  }

  /** What an event changes: the waits, their timers and the record of what ended. */
  datatype Half = Half(waiters: seq<Waiter>, armed: set<nat>, waited: seq<Waited>)

  /** The first waits of the copy were looked at: those that match are ended, the others and the rest are listed. */
  ghost predicate Halfway(copy: seq<Waiter>, i: nat, name: string, session: string, start: Half, h: Half)
    requires i <= |copy|
  {
    && h.waiters == Chosen(copy[..i], name, session, false) + copy[i..]
    && h.armed == start.armed - Uids(Chosen(copy[..i], name, session, true))
    && h.waited == start.waited + Ends(Chosen(copy[..i], name, session, true), true)
  }

  function Ended(h: Half, w: Waiter): Half {
    Half(Splice(h.waiters, PlaceOf(h.waiters, w.uid)), h.armed - {w.uid}, h.waited + [Waited(w.uid, true)])
  }

  lemma FirstHalf(copy: seq<Waiter>, name: string, session: string, start: Half)
    requires start.waiters == copy
    ensures Halfway(copy, 0, name, session, start, start)
  {
    assert copy[..0] == [] && copy[0..] == copy;
  }

  lemma BothHalves(copy: seq<Waiter>, name: string, session: string, start: Half, h: Half)
    requires Halfway(copy, |copy|, name, session, start, h)
    ensures h.waiters == Chosen(copy, name, session, false)
    ensures h.armed == start.armed - Uids(Chosen(copy, name, session, true))
    ensures h.waited == start.waited + Ends(Chosen(copy, name, session, true), true)
  {
    assert copy[..|copy|] == copy && copy[|copy|..] == [];
  }

  /** One more of them. */
  lemma HalfMore(copy: seq<Waiter>, i: nat, name: string, session: string, start: Half, h: Half)
    requires i < |copy| && Apart(copy) && Halfway(copy, i, name, session, start, h)
    ensures Halfway(copy, i + 1, name, session, start, if Matches(copy[i], name, session) then Ended(h, copy[i]) else h)
  {
    var kept, gone := Chosen(copy[..i], name, session, false), Chosen(copy[..i], name, session, true);
    ChosenMore(copy, i, name, session);
    EventTurn(copy, i, name, session, kept);
    if Matches(copy[i], name, session) {
      HalfEnds(kept, gone, copy[i], copy[i + 1..], copy[i..], start, h);
    } else {
      HalfKeeps(kept, gone, copy[i], copy[i + 1..], copy[i..], start, h);
    }
  }

  lemma HalfEnds(kept: seq<Waiter>, gone: seq<Waiter>, w: Waiter, rest: seq<Waiter>, all: seq<Waiter>, start: Half,
        h: Half)
    requires h.waiters == kept + all && Splice(kept + all, PlaceOf(kept + all, w.uid)) == kept + rest
    requires h.armed == start.armed - Uids(gone) && h.waited == start.waited + Ends(gone, true)
    ensures Ended(h, w).waiters == kept + [] + rest
    ensures Ended(h, w).armed == start.armed - Uids(gone + [w])
        && Ended(h, w).waited == start.waited + Ends(gone + [w], true)
  {
    MoreEnds(gone, w, true, start.waited, start.armed);
    assert kept + [] == kept;
  }

  lemma HalfKeeps(kept: seq<Waiter>, gone: seq<Waiter>, w: Waiter, rest: seq<Waiter>, all: seq<Waiter>, start: Half,
        h: Half)
    requires h.waiters == kept + all && kept + all == kept + [w] + rest
    requires h.armed == start.armed - Uids(gone) && h.waited == start.waited + Ends(gone, true)
    ensures h.waiters == kept + [w] + rest
    ensures h.armed == start.armed - Uids(gone + []) && h.waited == start.waited + Ends(gone + [], true)
  {
    assert gone + [] == gone;
  }

  lemma MoreEnds(ended: seq<Waiter>, w: Waiter, event: bool, before: seq<Waited>, armed: set<nat>)
    ensures Uids(ended + [w]) == Uids(ended) + {w.uid} && armed - Uids(ended + [w]) == armed - Uids(ended) - {w.uid}
    ensures before + Ends(ended + [w], event) == before + Ends(ended, event) + [Waited(w.uid, event)]
  {
    assert (ended + [w])[..|ended|] == ended;
  }

  // ---------------------------------------------------------------- what every run keeps

  /** A timer is armed exactly while its wait is listed. */
  ghost predicate Listed(s: State) {
    Apart(s.waiters) && s.armed == Uids(s.waiters) && forall i :: 0 <= i < |s.waiters| ==> s.waiters[i].uid < s.nextUid
  }

  ghost predicate WaitEnded(s: State, uid: nat) { exists i :: 0 <= i < |s.waited| && s.waited[i].uid == uid }

  /** Every wait is listed or has ended, and has ended at most once. */
  ghost predicate Waits(s: State) {
    && (forall i :: 0 <= i < |s.waited| ==> s.waited[i].uid < s.nextUid && s.waited[i].uid !in s.armed)
    && (forall i, j :: 0 <= i < j < |s.waited| ==> s.waited[i].uid != s.waited[j].uid)
    && (forall uid: nat :: uid < s.nextUid && uid !in s.armed ==> WaitEnded(s, uid))
  }

  /** Every call is pending or settled, and is settled at most once. */
  ghost predicate Calls(s: State) {
    && (forall i, j :: 0 <= i < j < |s.pending| ==> s.pending[i] != s.pending[j])
    && (forall i, j :: 0 <= i < j < |s.settled| ==> s.settled[i] != s.settled[j])
    && (forall id :: id in s.pending ==> 1 <= id < s.nextId && id !in s.settled)
    && (forall id :: id in s.settled ==> 1 <= id < s.nextId)
    && (forall id: nat :: 1 <= id < s.nextId ==> id in s.pending || id in s.settled)
    && (s.closed ==> s.pending == [])
  }

  ghost predicate Inv(s: State) { s.nextId >= 1 && Listed(s) && Waits(s) && Calls(s) }

  /** The timer's splice always takes out its own wait, never another. */
  lemma TimerTakesItsOwn(s: State, uid: nat)
    requires Listed(s) && uid in s.armed
    ensures PlaceOf(s.waiters, uid) >= 0
    ensures Apart(Splice(s.waiters, PlaceOf(s.waiters, uid)))
    ensures Uids(Splice(s.waiters, PlaceOf(s.waiters, uid))) == s.armed - {uid}
  {
    UidsHas(s.waiters, uid);
    var i := PlaceOf(s.waiters, uid);
    SpliceApart(s.waiters, i, Splice(s.waiters, i));
    forall x: nat ensures x in Uids(Splice(s.waiters, i)) <==> x in s.armed && x != uid {
      SpliceUid(s.waiters, i, Splice(s.waiters, i), x);
    }
  }

  lemma SpliceApart(waiters: seq<Waiter>, i: nat, r: seq<Waiter>)
    requires i < |waiters| && r == waiters[..i] + waiters[i + 1..] && Apart(waiters)
    ensures Apart(r) && forall k :: 0 <= k < |r| ==> r[k] == waiters[if k < i then k else k + 1]
  {
  }

  lemma SpliceUid(waiters: seq<Waiter>, i: nat, r: seq<Waiter>, x: nat)
    requires i < |waiters| && r == waiters[..i] + waiters[i + 1..] && Apart(waiters)
    ensures x in Uids(r) <==> x in Uids(waiters) && x != waiters[i].uid
  {
    UidsHas(r, x);
    UidsHas(waiters, x);
    if x in Uids(r) {
      var k :| 0 <= k < |r| && r[k].uid == x;
      assert waiters[if k < i then k else k + 1].uid == x;
    }
    if x in Uids(waiters) && x != waiters[i].uid {
      var j :| 0 <= j < |waiters| && waiters[j].uid == x;
      assert r[if j < i then j else j - 1] == waiters[j];
    }
  }

  lemma TimerListed(s: State, uid: nat)
    requires Listed(s) && uid in s.armed
    ensures Listed(Step(s, TimerFires(uid)))
  {
    TimerTakesItsOwn(s, uid);
  }

  lemma EventListed(s: State, name: string, session: string)
    requires Listed(s)
    ensures Listed(Step(s, OnMessage(Event(name, session))))
  {
    var kept, gone := Chosen(s.waiters, name, session, false), Chosen(s.waiters, name, session, true);
    ChosenFrom(s.waiters, name, session, false);
    ChosenApart(s.waiters, name, session, false);
    ChosenFrom(s.waiters, name, session, true);
    forall i | 0 <= i < |kept| ensures kept[i].uid < s.nextUid {
      assert kept[i] in s.waiters;
    }
    forall x: nat ensures x in Uids(kept) <==> x in s.armed && x !in Uids(gone) {
      EventUid(s.waiters, kept, gone, x);
    }
  }

  lemma EventUid(waiters: seq<Waiter>, kept: seq<Waiter>, gone: seq<Waiter>, x: nat)
    requires Apart(waiters) && (forall w :: w in waiters <==> w in kept || w in gone)
    requires (forall w :: w in kept ==> w !in gone)
    ensures x in Uids(kept) <==> x in Uids(waiters) && x !in Uids(gone)
  {
    UidIn(kept, x);
    UidIn(gone, x);
    UidIn(waiters, x);
    if a, b :| a in waiters && b in waiters && a.uid == x && b.uid == x && a != b { assert false; }
  }

  lemma UidIn(waiters: seq<Waiter>, x: nat)
    ensures x in Uids(waiters) <==> exists w :: w in waiters && w.uid == x
  {
    UidsHas(waiters, x);
    if w :| w in waiters && w.uid == x { var i :| 0 <= i < |waiters| && waiters[i] == w; }
    if i :| 0 <= i < |waiters| && waiters[i].uid == x { assert waiters[i] in waiters; }
  }

  lemma {:induction false} EndsAt(waiters: seq<Waiter>, event: bool)
    ensures |Ends(waiters, event)| == |waiters|
    ensures forall i :: 0 <= i < |waiters| ==> Ends(waiters, event)[i] == Waited(waiters[i].uid, event)
  {
    if waiters != [] { EndsAt(waiters[..|waiters| - 1], event); }
  }

  /** The waits that end leave the list, and are recorded once each. */
  lemma WaitsEnd(s: State, gone: seq<Waiter>, event: bool, t: State)
    requires Waits(s) && Apart(gone) && (forall i :: 0 <= i < |gone| ==> gone[i].uid in s.armed)
    requires forall x :: x in s.armed ==> x < s.nextUid
    requires t.armed == s.armed - Uids(gone) && t.waited == s.waited + Ends(gone, event) && t.nextUid == s.nextUid
    ensures Waits(t)
  {
    EndsAt(gone, event);
    var n := |s.waited|;
    assert forall i :: 0 <= i < n ==> t.waited[i] == s.waited[i];
    assert forall i :: n <= i < |t.waited| ==> t.waited[i].uid == gone[i - n].uid;
    forall i | n <= i < |t.waited| ensures t.waited[i].uid !in t.armed { UidsHas(gone, t.waited[i].uid); }
    forall uid: nat | uid < t.nextUid && uid !in t.armed ensures WaitEnded(t, uid) {
      AllWaitsEnd(s, gone, event, t, uid);
    }
  }

  lemma AllWaitsEnd(s: State, gone: seq<Waiter>, event: bool, t: State, uid: nat)
    requires Waits(s) && uid < s.nextUid && uid !in t.armed
    requires t.armed == s.armed - Uids(gone) && t.waited == s.waited + Ends(gone, event)
    ensures WaitEnded(t, uid)
  {
    if uid in s.armed {
      UidsHas(gone, uid);
      EndsAt(gone, event);
      var i :| 0 <= i < |gone| && gone[i].uid == uid;
      assert t.waited[|s.waited| + i].uid == uid;
    } else {
      assert WaitEnded(s, uid);
      var i :| 0 <= i < |s.waited| && s.waited[i].uid == uid;
      assert t.waited[i].uid == uid;
    }
  }

  lemma ArmedBelow(s: State)
    requires Listed(s)
    ensures forall x :: x in s.armed ==> x < s.nextUid
  {
    forall x | x in s.armed ensures x < s.nextUid { UidsHas(s.waiters, x); }
  }

  lemma ListedArmed(s: State, some: seq<Waiter>)
    requires Listed(s) && forall w :: w in some ==> w in s.waiters
    ensures forall i :: 0 <= i < |some| ==> some[i].uid in s.armed
  {
    forall i | 0 <= i < |some| ensures some[i].uid in s.armed {
      assert some[i] in s.waiters;
      UidsHas(s.waiters, some[i].uid);
    }
  }

  lemma WaitForKeeps(s: State, name: string, session: string)
    requires Listed(s) && Waits(s)
    ensures Listed(Step(s, WaitFor(name, session))) && Waits(Step(s, WaitFor(name, session)))
  {
    var t := Step(s, WaitFor(name, session));
    assert t.waiters[..|s.waiters|] == s.waiters;
    forall uid: nat | uid < t.nextUid && uid !in t.armed ensures WaitEnded(t, uid) {
      var i :| 0 <= i < |s.waited| && s.waited[i].uid == uid;
      assert t.waited[i].uid == uid;
    }
  }

  lemma EventWaits(s: State, name: string, session: string)
    requires Listed(s) && Waits(s)
    ensures Waits(Step(s, OnMessage(Event(name, session))))
  {
    var gone := Chosen(s.waiters, name, session, true);
    ChosenFrom(s.waiters, name, session, true);
    ChosenApart(s.waiters, name, session, true);
    ArmedBelow(s);
    ListedArmed(s, gone);
    WaitsEnd(s, gone, true, Step(s, OnMessage(Event(name, session))));
  }

  lemma TimerWaits(s: State, uid: nat)
    requires Listed(s) && Waits(s) && uid in s.armed
    ensures Waits(Step(s, TimerFires(uid)))
  {
    TimerTakesItsOwn(s, uid);
    ArmedBelow(s);
    var w := s.waiters[PlaceOf(s.waiters, uid)];
    ListedArmed(s, [w]);
    MoreEnds([], w, false, [], {});
    assert [] + [w] == [w];
    assert Uids([w]) == {uid} && Ends([w], false) == [Waited(uid, false)];
    WaitsEnd(s, [w], false, Step(s, TimerFires(uid)));
  }

  lemma CloseKeeps(s: State)
    requires Inv(s)
    ensures Inv(Step(s, Close))
  {
    ArmedBelow(s);
    ListedArmed(s, s.waiters);
    WaitsEnd(s, s.waiters, false, Step(s, Close));
    var t := Step(s, Close);
    assert forall i ::
        |s.settled| <= i < |t.settled| ==> t.settled[i] == s.pending[i - |s.settled|] && t.settled[i] in s.pending;
    assert forall i :: 0 <= i < |s.settled| ==> s.settled[i] in s.settled;
  }

  lemma {:induction false} MinusApart(ids: seq<nat>, id: nat)
    requires forall i, j :: 0 <= i < j < |ids| ==> ids[i] != ids[j]
    ensures forall i, j :: 0 <= i < j < |Minus(ids, id)| ==> Minus(ids, id)[i] != Minus(ids, id)[j]
  {
    if ids != [] {
      var n := |ids| - 1;
      MinusApart(ids[..n], id);
      assert ids[n] !in ids[..n];
      assert forall i :: 0 <= i < |Minus(ids[..n], id)| ==> Minus(ids[..n], id)[i] in Minus(ids[..n], id);
    }
  }

  lemma SameWaits(s: State, t: State)
    requires Waits(s) && t.waited == s.waited && t.armed == s.armed && t.nextUid == s.nextUid
    ensures Waits(t)
  {
    forall uid: nat | uid < t.nextUid && uid !in t.armed ensures WaitEnded(t, uid) {
      assert WaitEnded(s, uid);
      var i :| 0 <= i < |s.waited| && s.waited[i].uid == uid;
      assert t.waited[i].uid == uid;
    }
  }

  lemma ReplyCalls(s: State, id: nat)
    requires Calls(s)
    ensures Calls(Step(s, OnMessage(Reply(id))))
  {
    if id in s.pending { MinusApart(s.pending, id); }
  }

  lemma CallCalls(s: State)
    requires Calls(s) && s.nextId >= 1
    ensures Calls(Step(s, Call))
  {
    assert forall i :: 0 <= i < |s.pending| ==> s.pending[i] in s.pending;
  }

  lemma StepKeeps(s: State, a: Action)
    requires Inv(s) && Enabled(s, a)
    ensures Inv(Step(s, a))
  {
    match a
    case Call => CallCalls(s); SameWaits(s, Step(s, a));
    case WaitFor(name, session) => WaitForKeeps(s, name, session);
    case TimerFires(uid) => TimerListed(s, uid); TimerWaits(s, uid);
    case OnMessage(Reply(id)) => ReplyCalls(s, id); SameWaits(s, Step(s, a));
    case OnMessage(Event(name, session)) => EventListed(s, name, session); EventWaits(s, name, session);
    case OnMessage(Junk) =>
    case Close => CloseKeeps(s);
  }

  // ---------------------------------------------------------------- what ends what

  /** A wait for an event of this name, in its session or in any. */
  predicate WaitsFor(w: Waiter, name: string, session: string) { w.name == name && w.session in {"", session} }

  lemma EndsHave(waiters: seq<Waiter>, event: bool, w: Waiter)
    requires w in waiters
    ensures Waited(w.uid, event) in Ends(waiters, event)
  {
    EndsAt(waiters, event);
    var i :| 0 <= i < |waiters| && waiters[i] == w;
    assert Ends(waiters, event)[i] == Waited(w.uid, event);
  }

  lemma {:induction false} ChosenAll(waiters: seq<Waiter>, name: string, session: string)
    ensures |Chosen(waiters, name, session, true)| + |Chosen(waiters, name, session, false)| == |waiters|
  {
    if waiters != [] { ChosenAll(waiters[..|waiters| - 1], name, session); }
  }

  /**
   An event ends every wait for its name, in its session or in any, and only those: they leave the list, their timers
   are
   disarmed and each is recorded as ended by its event; the others are listed and armed as before.
   */
  lemma EventEnds(s: State, name: string, session: string, r: State)
    requires Listed(s) && r == Step(s, OnMessage(Event(name, session)))
    ensures forall w :: w in s.waiters && WaitsFor(w, name, session) ==>
              w !in r.waiters && w.uid !in r.armed && Waited(w.uid, true) in r.waited
    ensures forall w :: w in s.waiters && !WaitsFor(w, name, session) ==> w in r.waiters && w.uid in r.armed
    ensures (forall w :: w in r.waiters ==> w in s.waiters) && s.waited <= r.waited
    ensures |r.waited| - |s.waited| == |s.waiters| - |r.waiters| && r.pending == s.pending && r.settled == s.settled
  {
    var kept, gone := Chosen(s.waiters, name, session, false), Chosen(s.waiters, name, session, true);
    ChosenFrom(s.waiters, name, session, true);
    ChosenFrom(s.waiters, name, session, false);
    ChosenAll(s.waiters, name, session);
    EndsAt(gone, true);
    forall w | w in s.waiters && WaitsFor(w, name, session) ensures w.uid !in r.armed
        && Waited(w.uid, true) in r.waited {
      EndsHave(gone, true, w);
      UidIn(gone, w.uid);
    }
    forall w | w in s.waiters && !WaitsFor(w, name, session) ensures w.uid in r.armed {
      EventUid(s.waiters, kept, gone, w.uid);
      UidIn(kept, w.uid);
    }
  }

  /** A reply settles the call it answers, once, and touches nothing else; one that answers none changes nothing. */
  lemma ReplySettles(s: State, id: nat, r: State)
    requires r == Step(s, OnMessage(Reply(id)))
    ensures if id in s.pending then r.settled == s.settled + [id] && id !in r.pending else r == s
    ensures forall k :: k != id ==> (k in r.pending <==> k in s.pending)
    ensures r.waiters == s.waiters && r.armed == s.armed && r.waited == s.waited && r.nextId == s.nextId
  {
  }

  /** Once the browser is gone it stays so, and no call is made any more. */
  lemma ClosedForGood(s: State, actions: seq<Action>, r: State)
    requires Runs(Step(s, Close), actions) && r == After(Step(s, Close), actions)
    ensures r.closed && r.nextId == s.nextId
  {
    StaysClosed(Step(s, Close), actions, r);
  }

  lemma {:induction false} StaysClosed(s: State, actions: seq<Action>, r: State)
    requires s.closed && Runs(s, actions) && r == After(s, actions)
    ensures r.closed && r.nextId == s.nextId
    decreases |actions|
  {
    if actions != [] { StaysClosed(Step(s, actions[0]), actions[1..], r); }
  }

  // ---------------------------------------------------------------- every run

  ghost predicate Runs(s: State, actions: seq<Action>)
    decreases |actions|
  {
    actions == [] || (Enabled(s, actions[0]) && Runs(Step(s, actions[0]), actions[1..]))
  }

  function After(s: State, actions: seq<Action>): State
    requires Runs(s, actions)
    decreases |actions|
  {
    if actions == [] then s else After(Step(s, actions[0]), actions[1..])
  }

  lemma {:induction false} RunKeeps(s: State, actions: seq<Action>)
    requires Inv(s) && Runs(s, actions)
    ensures Inv(After(s, actions))
    decreases |actions|
  {
    if actions != [] {
      StepKeeps(s, actions[0]);
      RunKeeps(Step(s, actions[0]), actions[1..]);
    }
  }

  /**
   In every run a wait's timer is armed exactly while the wait is listed; every wait is listed or has ended, and every
   call pending or settled, each at most once.
   */
  lemma EveryRunKeeps(actions: seq<Action>)
    requires Runs(START, actions)
    ensures var s := After(START, actions); Listed(s) && Waits(s) && Calls(s)
  {
    RunKeeps(START, actions);
  }
}
