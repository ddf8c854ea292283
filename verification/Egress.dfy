/**
 sandbox/egress-proxy.js: the limits of a session's egress. Token buckets admit requests, a byte budget in each
 direction ends in a latch, and every host has a number of connection slots. Handlers of different transfers
 interleave; each action below is one stretch that runs without a wait.
 */
module Egress {
  import opened Prelude

  datatype Direction = Down | Up

  /** A rate of zero means that the bucket does not limit. */
  datatype Rate = Rate(rate: real, burst: real)

  datatype Bucket = Bucket(tokens: real, last: real)

  datatype Host = Host(bucket: Bucket, active: nat)

  /** A limit of None is the source's Infinity. */
  datatype Config = Config(down: Option<nat>, up: Option<nat>, host: Rate, session: Rate, perHost: Option<nat>)

  datatype Refusals = Refusals(budget: nat, rate: nat, connections: nat)

  /** One admitted request or tunnel, and whether its slot was given back. */
  datatype Transfer = Transfer(host: string, released: bool)

  datatype State = State(down: nat, up: nat, spent: bool, spentDirection: Option<Direction>, refusals: Refusals,
                         hosts: map<string, Host>, session: Bucket, transfers: seq<Transfer>)

  /**
   `Arrive` is a request up to the wait for the guard, `Admit` what follows when the guard let it pass: the clock is
   read for a host seen for the first time, for the session's bucket and for the host's. `Data` is a chunk of a
   transfer, `Close` any of the events after which a transfer gives its slot back.
   */
  datatype Action =
    | Arrive
    | Admit(host: string, t0: real, t1: real, t2: real)
    | Data(direction: Direction, n: nat)
    | Close(transfer: nat)

  datatype Outcome = Passed | OverBudget | TooFast | TooMany | Admitted(transfer: nat) | Granted(n: nat) | Closed

  // ---------------------------------------------------------------- limits

  /** A number the caller gave; what is not a number, or left empty, is `NotANumber`. */
  datatype Given = NotANumber | Number(n: int) | Infinite

  predicate Positive(v: Given) { v.Infinite? || (v.Number? && v.n > 0) }

  function FiniteOf(v: Given): Option<nat>
    requires Positive(v)
  {
    if v.Number? then Some(v.n) else None
  }

  /** `limitOf` */
  function LimitOf(v: Given, default: Given): Option<nat> {
    if Positive(v) then FiniteOf(v) else if Positive(default) then FiniteOf(default) else None
  }

  datatype GivenRate = GivenRate(rate: Option<real>, burst: Option<real>)

  datatype Options = Options(budgetDown: Given, budgetUp: Given, host: GivenRate, session: GivenRate, perHost: Given)

  const DEFAULT_BUDGET_DOWN := 500 * 1024 * 1024
  const DEFAULT_BUDGET_UP := 100 * 1024 * 1024
  const DEFAULT_HOST_BURST := 30.0
  const DEFAULT_SESSION_BURST := 50.0

  function RateOf(r: GivenRate, default: real): Rate {
    Rate(if r.rate.Some? && r.rate.value > 0.0 then r.rate.value else 0.0,
         MaxR(1.0, if r.burst.Some? && r.burst.value != 0.0 then r.burst.value else default))
  }

  /** The limits a proxy is created with. */
  function Configure(o: Options): Config {
    Config(LimitOf(o.budgetDown, Number(DEFAULT_BUDGET_DOWN)), LimitOf(o.budgetUp, Number(DEFAULT_BUDGET_UP)),
           RateOf(o.host, DEFAULT_HOST_BURST), RateOf(o.session, DEFAULT_SESSION_BURST),
           if Positive(o.perHost) then FiniteOf(o.perHost) else None)
  }

  predicate ValidRate(r: Rate) { r.burst >= 1.0 }

  predicate ValidConfig(cfg: Config) { ValidRate(cfg.host) && ValidRate(cfg.session) }

  /** A burst is at least one; one that is not given, or zero, is the default. */
  function BurstOf(given: Option<real>, default: real): real {
    match given
    case None => default
    case Some(b) => if b == 0.0 then default else if b < 1.0 then 1.0 else b
  }

  /**
   What each knob comes to, whatever is given. A direction is without a limit exactly when its budget is Infinity: a
   budget of zero or less is the default one. Rates and slots are without a limit when what is given is not positive.
   A budget, a burst or a number of slots that is given counts as it is given. Every limit lets something through.
   */
  lemma ConfigureIff(o: Options, cfg: Config)
    requires cfg == Configure(o)
    ensures (cfg.down.None? <==> o.budgetDown.Infinite?) && (cfg.up.None? <==> o.budgetUp.Infinite?)
    ensures !Positive(o.budgetDown) ==> cfg.down == Some(DEFAULT_BUDGET_DOWN)
    ensures !Positive(o.budgetUp) ==> cfg.up == Some(DEFAULT_BUDGET_UP)
    ensures cfg.perHost.None? <==> o.perHost.Infinite? || !Positive(o.perHost)
    ensures cfg.host.rate > 0.0 <==> o.host.rate.Some? && o.host.rate.value > 0.0
    ensures cfg.session.rate > 0.0 <==> o.session.rate.Some? && o.session.rate.value > 0.0
    ensures cfg.host.rate > 0.0 ==> o.host.rate == Some(cfg.host.rate)
    ensures cfg.session.rate > 0.0 ==> o.session.rate == Some(cfg.session.rate)
    ensures cfg.host.burst == BurstOf(o.host.burst, 30.0) && cfg.session.burst == BurstOf(o.session.burst, 50.0)
    ensures o.budgetDown.Number? && o.budgetDown.n > 0 ==> cfg.down == Some(o.budgetDown.n)
    ensures o.budgetUp.Number? && o.budgetUp.n > 0 ==> cfg.up == Some(o.budgetUp.n)
    ensures o.perHost.Number? && o.perHost.n > 0 ==> cfg.perHost == Some(o.perHost.n)
    ensures cfg.down != Some(0) && cfg.up != Some(0) && cfg.perHost != Some(0) && ValidConfig(cfg)
  {
  }

  function Limit(cfg: Config, d: Direction): Option<nat> { if d.Down? then cfg.down else cfg.up }

  function Bytes(st: State, d: Direction): nat { if d.Down? then st.down else st.up }

  predicate Within(n: nat, limit: Option<nat>) { limit.Some? ==> n <= limit.value }

  predicate Over(n: nat, limit: Option<nat>) { limit.Some? && n > limit.value }

  // ---------------------------------------------------------------- the steps

  /** What a rate puts into a bucket in some milliseconds. */
  function Refill(rate: real, ms: real): real { ms / 1000.0 * rate }

  datatype Taken = Taken(ok: bool, bucket: Bucket)

  /** `take` */
  function Take(b: Bucket, cfg: Rate, t: real): Taken {
    if !(cfg.rate > 0.0) then Taken(true, b)
    else
      var tokens := MinR(cfg.burst, b.tokens + Refill(cfg.rate, MaxR(0.0, t - b.last)));
      if tokens < 1.0 then Taken(false, Bucket(tokens, t)) else Taken(true, Bucket(tokens - 1.0, t))
  }

  function RateFor(cfg: Config, host: Option<string>): Rate { if host.None? then cfg.session else cfg.host }

  function BucketOf(st: State, host: Option<string>): Bucket
    requires host.Some? ==> host.value in st.hosts
  {
    if host.None? then st.session else st.hosts[host.value].bucket
  }

  /** The state with another bucket for a host, or for the session. */
  function Filling(st: State, host: Option<string>, b: Bucket): State
    requires host.Some? ==> host.value in st.hosts
  {
    if host.None? then st.(session := b) else st.(hosts := st.hosts[host.value := st.hosts[host.value].(bucket := b)])
  }

  /** `hostState`: a host seen for the first time starts with a full bucket. */
  function HostState(cfg: Config, st: State, host: string, t: real): Host {
    if host in st.hosts then st.hosts[host] else Host(Bucket(cfg.host.burst, t), 0)
  }

  /** The bytes of a chunk that may pass. */
  function Allowed(cfg: Config, st: State, d: Direction, n: nat): nat {
    if st.spent then 0
    else if Limit(cfg, d).Some? then Min(n, Max(0, Limit(cfg, d).value - Bytes(st, d))) else n
  }

  /** `account` */
  function Account(cfg: Config, st: State, d: Direction, n: nat): State {
    if st.spent || n == 0 then st
    else
      var taken := Allowed(cfg, st, d, n);
      var counted := if d.Down? then st.(down := st.down + taken) else st.(up := st.up + taken);
      if taken < n then counted.(spent := true, spentDirection := Some(d)) else counted
  }

  function OutOfBudget(st: State): State { st.(refusals := st.refusals.(budget := st.refusals.budget + 1)) }

  /** The admission steps of `onRequest` and `onConnect`. */
  function Admission(cfg: Config, st: State, host: string, t0: real, t1: real, t2: real): (State, Outcome) {
    if st.spent then (OutOfBudget(st), OverBudget)
    else
      var h := HostState(cfg, st, host, t0);
      var s := Take(st.session, cfg.session, t1);
      if !s.ok then
        (st.(hosts := st.hosts[host := h], session := s.bucket,
            refusals := st.refusals.(rate := st.refusals.rate + 1)), TooFast)
      else
        var k := Take(h.bucket, cfg.host, t2);
        var met := st.(hosts := st.hosts[host := h.(bucket := k.bucket)], session := s.bucket);
        if !k.ok then (met.(refusals := st.refusals.(rate := st.refusals.rate + 1)), TooFast)
        else if cfg.perHost.Some? && h.active >= cfg.perHost.value then
          (met.(refusals := st.refusals.(connections := st.refusals.connections + 1)), TooMany)
        else
          (met.(hosts := met.hosts[host := Host(k.bucket, h.active + 1)],
                transfers := st.transfers + [Transfer(host, false)]),
           Admitted(|st.transfers|))
  }

  /** `release` */
  function Release(st: State, id: nat): State {
    if id < |st.transfers| && !st.transfers[id].released && st.transfers[id].host in st.hosts then
      var t := st.transfers[id];
      var h := st.hosts[t.host];
      st.(transfers := st.transfers[id := t.(released := true)],
          hosts := st.hosts[t.host := h.(active := Max(0, h.active - 1))])
    else st
  }

  function Step(cfg: Config, st: State, a: Action): (State, Outcome) {
    match a
    case Arrive => if st.spent then (OutOfBudget(st), OverBudget) else (st, Passed)
    case Admit(host, t0, t1, t2) => Admission(cfg, st, host, t0, t1, t2)
    case Data(d, n) => (Account(cfg, st, d, n), Granted(Allowed(cfg, st, d, n)))
    case Close(id) => (Release(st, id), Closed)
  }

  function Start(cfg: Config, t: real): State {
    State(0, 0, false, None, Refusals(0, 0, 0), map[], Bucket(cfg.session.burst, t), [])
  }

  /** The state some actions lead to, and what the last of them is answered. */
  function Run(cfg: Config, st: State, actions: seq<Action>): State {
    if actions == [] then st else Step(cfg, Run(cfg, st, actions[..|actions| - 1]), actions[|actions| - 1]).0
  }

  function Answer(cfg: Config, st: State, actions: seq<Action>): Outcome
    requires actions != []
  {
    Step(cfg, Run(cfg, st, actions[..|actions| - 1]), actions[|actions| - 1]).1
  }

  // ---------------------------------------------------------------- the proxy itself

  class Proxy {
    const cfg: Config
    var down: nat
    var up: nat
    var spent: bool
    var spentDirection: Option<Direction>
    var refusals: Refusals
    var hosts: map<string, Host>
    var session: Bucket
    var transfers: seq<Transfer>

    function View(): State
      reads this
    {
      State(down, up, spent, spentDirection, refusals, hosts, session, transfers)
    }

    constructor (options: Options, t: real)
      ensures cfg == Configure(options) && View() == Start(cfg, t)
    {
      var limits := Configure(options);
      cfg := limits;
      down, up, spent, spentDirection, refusals := 0, 0, false, None, Refusals(0, 0, 0);
      hosts, session, transfers := map[], Bucket(limits.session.burst, t), [];
    }

    /** `take`: a token of a host's bucket, or (None) of the session's. */
    method TakeToken(host: Option<string>, t: real) returns (ok: bool)
      requires host.Some? ==> host.value in hosts
      modifies `session, `hosts
      ensures ok == Take(BucketOf(old(View()), host), RateFor(cfg, host), t).ok
      ensures View() == Filling(old(View()), host, Take(BucketOf(old(View()), host), RateFor(cfg, host), t).bucket)
    {
      var rate := if host.None? then cfg.session else cfg.host;
      if !(rate.rate > 0.0) { return true; }
      var b := if host.None? then session else hosts[host.value].bucket;
      var tokens := MinR(rate.burst, b.tokens + Refill(rate.rate, MaxR(0.0, t - b.last)));
      SetBucket(host, Bucket(tokens, t));
      if tokens < 1.0 { return false; }
      SetBucket(host, Bucket(tokens - 1.0, t));
      return true;
    }

    method SetBucket(host: Option<string>, b: Bucket)
      requires host.Some? ==> host.value in hosts
      modifies `session, `hosts
      ensures View() == Filling(old(View()), host, b) && (host.Some? ==> host.value in hosts)
    {
      if host.None? { session := b; } else { hosts := hosts[host.value := hosts[host.value].(bucket := b)]; }
    }

    /** Count bytes both ways; at the byte that spends the budget the latch falls. */
    method Count(d: Direction, n: nat) returns (taken: nat)
      modifies `down, `up, `spent, `spentDirection
      ensures View() == Account(cfg, old(View()), d, n) && taken == Allowed(cfg, old(View()), d, n)
    {
      if spent || n == 0 { return 0; }
      var limit := if d.Down? then cfg.down else cfg.up;
      var used := if d.Down? then down else up;
      taken := if limit.Some? then Min(n, Max(0, limit.value - used)) else n;
      if d.Down? { down := down + taken; } else { up := up + taken; }
      if taken < n { spent, spentDirection := true, Some(d); }
    }

    method RefuseSpent() returns (o: Outcome)
      modifies `refusals
      ensures View() == OutOfBudget(old(View())) && o == OverBudget
    {
      refusals := refusals.(budget := refusals.budget + 1);
      o := OverBudget;
    }

    method OnArrival() returns (o: Outcome)
      modifies `refusals
      ensures (View(), o) == Step(cfg, old(View()), Arrive)
    {
      if spent { o := RefuseSpent(); } else { o := Passed; }
    }

    method OnAdmission(host: string, t0: real, t1: real, t2: real) returns (o: Outcome)
      modifies `refusals, `hosts, `session, `transfers
      ensures (View(), o) == Step(cfg, old(View()), Admit(host, t0, t1, t2))
    {
      if spent { o := RefuseSpent(); return; }
      if host !in hosts { hosts := hosts[host := Host(Bucket(cfg.host.burst, t0), 0)]; }
      ghost var h := HostState(cfg, old(View()), host, t0);
      assert hosts == old(hosts)[host := h];
      var ok := TakeToken(None, t1);
      if ok {
        ok := TakeToken(Some(host), t2);
        assert hosts == old(hosts)[host := h.(bucket := hosts[host].bucket)];
      }
      if !ok {
        refusals := refusals.(rate := refusals.rate + 1);
        return TooFast;
      }
      if cfg.perHost.Some? && hosts[host].active >= cfg.perHost.value {
        refusals := refusals.(connections := refusals.connections + 1);
        return TooMany;
      }
      hosts := hosts[host := hosts[host].(active := hosts[host].active + 1)];
      o := Admitted(|transfers|);
      transfers := transfers + [Transfer(host, false)];
    }

    method OnClose(id: nat)
      requires id < |transfers| && transfers[id].host in hosts
      modifies `hosts, `transfers
      ensures View() == Step(cfg, old(View()), Close(id)).0
    {
      var t := transfers[id];
      if !t.released {
        transfers := transfers[id := t.(released := true)];
        hosts := hosts[t.host := hosts[t.host].(active := Max(0, hosts[t.host].active - 1))];
      }
    }
  }

  // ---------------------------------------------------------------- what every reachable state keeps

  /** The transfers to a host that still hold a slot. */
  function Open(transfers: seq<Transfer>, host: string): nat {
    if transfers == [] then 0
    else
      var last := transfers[|transfers| - 1];
      Open(transfers[..|transfers| - 1], host) + if last.host == host && !last.released then 1 else 0
  }

  /** The budgets: never exceeded, and the one that is spent is spent to its last byte. */
  predicate Budgeted(cfg: Config, st: State) {
    && Within(st.down, cfg.down) && Within(st.up, cfg.up)
    && (st.spent <==> st.spentDirection.Some?)
    && (st.spent ==> Limit(cfg, st.spentDirection.value) == Some(Bytes(st, st.spentDirection.value)))
  }

  /** The slots: a host's count is the number of its open transfers, and within the cap. */
  ghost predicate Slotted(cfg: Config, st: State) {
    && (forall h ::
      h in st.hosts ==> st.hosts[h].active == Open(st.transfers, h) && Within(st.hosts[h].active, cfg.perHost))
    && (forall i :: 0 <= i < |st.transfers| ==> st.transfers[i].host in st.hosts)
  }

  lemma AccountBudgeted(cfg: Config, st: State, d: Direction, n: nat)
    requires Budgeted(cfg, st)
    ensures Budgeted(cfg, Account(cfg, st, d, n))
  {
  }

  lemma {:induction false} OpenElsewhere(transfers: seq<Transfer>, host: string)
    requires forall i :: 0 <= i < |transfers| ==> transfers[i].host != host
    ensures Open(transfers, host) == 0
  {
    if transfers != [] { OpenElsewhere(transfers[..|transfers| - 1], host); }
  }

  lemma {:induction false} OpenClosed(transfers: seq<Transfer>, id: nat, host: string)
    requires id < |transfers| && !transfers[id].released
    ensures Open(transfers, host)
         == Open(transfers[id := transfers[id].(released := true)], host) + if transfers[id].host == host then 1 else 0
  {
    var n := |transfers| - 1;
    var after := transfers[id := transfers[id].(released := true)];
    if id == n {
      assert after[..n] == transfers[..n];
    } else {
      OpenClosed(transfers[..n], id, host);
      assert after[..n] == transfers[..n][id := transfers[id].(released := true)];
    }
  }

  lemma OpenMore(transfers: seq<Transfer>, t: Transfer, host: string)
    ensures Open(transfers + [t], host) == Open(transfers, host) + if t.host == host && !t.released then 1 else 0
  {
    assert (transfers + [t])[..|transfers|] == transfers;
  }

  /** A host was met, or met again, and no transfer began. */
  lemma MetSlotted(cfg: Config, st: State, host: string, bucket: Bucket, t: State)
    requires Slotted(cfg, st) && t.transfers == st.transfers
    requires t.hosts == st.hosts[host := Host(bucket, if host in st.hosts then st.hosts[host].active else 0)]
    ensures Slotted(cfg, t)
  {
    if host !in st.hosts { OpenElsewhere(st.transfers, host); }
  }

  /** A transfer began on a host with room. */
  lemma AdmittedSlotted(cfg: Config, st: State, host: string, active: nat, bucket: Bucket, t: State)
    requires Slotted(cfg, st) && active == (if host in st.hosts then st.hosts[host].active else 0)
    requires Within(active + 1, cfg.perHost)
    requires t.transfers == st.transfers + [Transfer(host, false)]
    requires t.hosts == st.hosts[host := Host(bucket, active + 1)]
    ensures Slotted(cfg, t)
  {
    if host !in st.hosts { OpenElsewhere(st.transfers, host); }
    forall h ensures Open(t.transfers, h) == Open(st.transfers, h) + if h == host then 1 else 0 {
      OpenMore(st.transfers, Transfer(host, false), h);
    }
  }

  lemma AdmissionSlotted(cfg: Config, st: State, host: string, t0: real, t1: real, t2: real)
    requires Slotted(cfg, st)
    ensures Slotted(cfg, Admission(cfg, st, host, t0, t1, t2).0)
  {
    if !st.spent {
      var t := Admission(cfg, st, host, t0, t1, t2).0;
      if t.transfers == st.transfers {
        MetSlotted(cfg, st, host, t.hosts[host].bucket, t);
      } else {
        AdmittedSlotted(cfg, st, host, HostState(cfg, st, host, t0).active, t.hosts[host].bucket, t);
      }
    }
  }

  /** A slot is given back from a count above zero: the floor in `release` is never needed. */
  lemma FloorNeverNeeded(cfg: Config, st: State, id: nat)
    requires Slotted(cfg, st) && id < |st.transfers| && !st.transfers[id].released
    ensures st.hosts[st.transfers[id].host].active > 0
    ensures Release(st, id).hosts[st.transfers[id].host].active == st.hosts[st.transfers[id].host].active - 1
  {
    OpenClosed(st.transfers, id, st.transfers[id].host);
  }

  lemma ReleaseSlotted(cfg: Config, st: State, id: nat)
    requires Slotted(cfg, st)
    ensures Slotted(cfg, Release(st, id))
  {
    if id < |st.transfers| && !st.transfers[id].released {
      FloorNeverNeeded(cfg, st, id);
      var after := st.transfers[id := st.transfers[id].(released := true)];
      forall h ensures Open(st.transfers, h) == Open(after, h) + if st.transfers[id].host == h then 1 else 0 {
        OpenClosed(st.transfers, id, h);
      }
    }
  }

  /** However close and error events repeat, a transfer gives its slot back at most once. */
  lemma ReleasedOnce(st: State, id: nat)
    ensures Release(Release(st, id), id) == Release(st, id)
    ensures id < |st.transfers| && st.transfers[id].host in st.hosts ==> Release(st, id).transfers[id].released
  {
  }

  lemma StepKeeps(cfg: Config, st: State, a: Action)
    requires Budgeted(cfg, st) && Slotted(cfg, st)
    ensures Budgeted(cfg, Step(cfg, st, a).0) && Slotted(cfg, Step(cfg, st, a).0)
  {
    match a
    case Arrive =>
    case Admit(host, t0, t1, t2) => AdmissionSlotted(cfg, st, host, t0, t1, t2);
    case Data(d, n) => AccountBudgeted(cfg, st, d, n);
    case Close(id) => ReleaseSlotted(cfg, st, id);
  }

  /** Budgets and slots hold in every state any interleaving of handlers leads to. */
  lemma {:induction false} EveryRunKeeps(cfg: Config, t: real, actions: seq<Action>)
    ensures Budgeted(cfg, Run(cfg, Start(cfg, t), actions)) && Slotted(cfg, Run(cfg, Start(cfg, t), actions))
  {
    if actions != [] {
      EveryRunKeeps(cfg, t, actions[..|actions| - 1]);
      StepKeeps(cfg, Run(cfg, Start(cfg, t), actions[..|actions| - 1]), actions[|actions| - 1]);
    }
  }

  // ---------------------------------------------------------------- who is admitted

  /**
   With what the rate added since it was last used, a bucket holds a token; without a rate there is nothing to hold.
   */
  predicate HasToken(b: Bucket, r: Rate, t: real) {
    r.rate > 0.0 ==> b.tokens + Refill(r.rate, MaxR(0.0, t - b.last)) >= 1.0
  }

  /** A host seen for the first time has its whole burst. */
  predicate HostHasToken(cfg: Config, st: State, host: string, t: real) {
    host in st.hosts ==> HasToken(st.hosts[host].bucket, cfg.host, t)
  }

  /** The host has a slot left besides those of its open transfers. */
  predicate HasRoom(cfg: Config, st: State, host: string) {
    cfg.perHost.Some? ==> Open(st.transfers, host) < cfg.perHost.value
  }

  lemma TakenIff(b: Bucket, r: Rate, t: real)
    requires ValidRate(r)
    ensures Take(b, r, t).ok <==> HasToken(b, r, t)
  {
  }

  lemma FullHasToken(r: Rate, t0: real, t: real)
    requires ValidRate(r)
    ensures HasToken(Bucket(r.burst, t0), r, t)
  {
    if r.rate > 0.0 { RefillGrows(r.rate, 0.0, MaxR(0.0, t - t0)); }
  }

  /**
   Who is admitted, in every state any interleaving leads to: one request exactly when the budget is not spent, the
   session has a token, its host has one, and that host's open transfers are fewer than the cap; and what each refusal
   means.
   */
  lemma AdmittedIff(o: Options, t: real, actions: seq<Action>, cfg: Config, st: State, a: Action, answer: Outcome)
    requires cfg == Configure(o) && st == Run(cfg, Start(cfg, t), actions) && a.Admit? && answer == Step(cfg, st, a).1
    ensures answer.OverBudget? <==> st.spent
    ensures answer.TooFast? <==>
      !st.spent && !(HasToken(st.session, cfg.session, a.t1) && HostHasToken(cfg, st, a.host, a.t2))
    ensures answer.TooMany? <==>
      !st.spent && HasToken(st.session, cfg.session, a.t1) && HostHasToken(cfg, st, a.host, a.t2)
          && !HasRoom(cfg, st, a.host)
    ensures answer == Admitted(|st.transfers|) <==>
      !st.spent && HasToken(st.session, cfg.session, a.t1) && HostHasToken(cfg, st, a.host, a.t2)
          && HasRoom(cfg, st, a.host)
  {
    ConfigureIff(o, cfg);
    EveryRunKeeps(cfg, t, actions);
    AnswerOf(cfg, st, a.host, a.t0, a.t1, a.t2, answer);
  }

  lemma AnswerOf(cfg: Config, st: State, host: string, t0: real, t1: real, t2: real, answer: Outcome)
    requires ValidConfig(cfg) && Slotted(cfg, st) && answer == Admission(cfg, st, host, t0, t1, t2).1
    ensures answer == if st.spent then OverBudget
                      else if !(HasToken(st.session, cfg.session, t1) && HostHasToken(cfg, st, host, t2)) then TooFast
                      else if !HasRoom(cfg, st, host) then TooMany
                      else Admitted(|st.transfers|)
  {
    TakenIff(st.session, cfg.session, t1);
    TakenIff(HostState(cfg, st, host, t0).bucket, cfg.host, t2);
    FullHasToken(cfg.host, t0, t2);
    if host !in st.hosts { OpenElsewhere(st.transfers, host); }
  }

  /** A rate is in tokens a second, and the time in milliseconds. */
  lemma RefillsBySecond(rate: real, seconds: real)
    ensures Refill(rate, seconds * 1000.0) == seconds * rate
  {
  }

  /** A host seen for the first time begins with its whole burst; only its own turn takes a token of it. */
  lemma FirstSeen(cfg: Config, st: State, a: Action, r: State)
    requires ValidConfig(cfg) && !st.spent && a.Admit? && a.host !in st.hosts && r == Step(cfg, st, a).0
    ensures a.host in r.hosts
    ensures var paid := cfg.host.rate > 0.0 && HasToken(st.session, cfg.session, a.t1);
            r.hosts[a.host].bucket.tokens == cfg.host.burst - if paid then 1.0 else 0.0
  {
    TakenIff(st.session, cfg.session, a.t1);
    if cfg.host.rate > 0.0 { RefillGrows(cfg.host.rate, 0.0, MaxR(0.0, a.t2 - a.t0)); }
  }

  /** How often a run answered so. */
  function Times(cfg: Config, st: State, actions: seq<Action>, o: Outcome): nat {
    if actions == [] then 0
    else Times(cfg, st, actions[..|actions| - 1], o) + if Answer(cfg, st, actions) == o then 1 else 0
  }

  /** The counters of refusals tell how many requests were refused, and why. */
  lemma {:induction false} RefusalsCounted(cfg: Config, t: real, actions: seq<Action>, r: Refusals)
    requires r == Run(cfg, Start(cfg, t), actions).refusals
    ensures r.budget == Times(cfg, Start(cfg, t), actions, OverBudget)
    ensures r.rate == Times(cfg, Start(cfg, t), actions, TooFast)
    ensures r.connections == Times(cfg, Start(cfg, t), actions, TooMany)
  {
    if actions != [] {
      var front := actions[..|actions| - 1];
      RefusalsCounted(cfg, t, front, Run(cfg, Start(cfg, t), front).refusals);
    }
  }

  // ---------------------------------------------------------------- the byte budget

  /** The bytes all chunks of a direction asked for. */
  function Asked(actions: seq<Action>, d: Direction): nat {
    if actions == [] then 0
    else
      var a := actions[|actions| - 1];
      Asked(actions[..|actions| - 1], d) + if a.Data? && a.direction == d then a.n else 0
  }

  /** The bytes all chunks of a direction were granted. */
  function GrantedIn(cfg: Config, st: State, actions: seq<Action>, d: Direction): nat {
    if actions == [] then 0
    else
      var a, o := actions[|actions| - 1], Answer(cfg, st, actions);
      GrantedIn(cfg, st, actions[..|actions| - 1], d) + if a.Data? && a.direction == d && o.Granted? then o.n else 0
  }

  /** The count of a direction is the sum of what was granted. */
  lemma {:induction false} CountIsGranted(cfg: Config, t: real, actions: seq<Action>, d: Direction)
    ensures Bytes(Run(cfg, Start(cfg, t), actions), d) == GrantedIn(cfg, Start(cfg, t), actions, d)
  {
    if actions != [] {
      CountIsGranted(cfg, t, actions[..|actions| - 1], d);
      EveryRunKeeps(cfg, t, actions[..|actions| - 1]);
    }
  }

  /**
   The latch falls if and only if one direction was asked to carry more than its limit in all; until then every byte
   asked for was granted.
   */
  lemma {:induction false} SpentIffOverAsked(cfg: Config, t: real, actions: seq<Action>)
    ensures var st := Run(cfg, Start(cfg, t), actions);
            && (st.spent <==> Over(Asked(actions, Down), cfg.down) || Over(Asked(actions, Up), cfg.up))
            && (!st.spent ==> st.down == Asked(actions, Down) && st.up == Asked(actions, Up))
  {
    if actions != [] { SpentIffOverAsked(cfg, t, actions[..|actions| - 1]); }
  }

  /** Behind the latch nothing is counted, nothing is granted and nothing is admitted, whatever happens. */
  lemma {:induction false} NothingBehindTheLatch(cfg: Config, st: State, actions: seq<Action>)
    requires st.spent
    ensures var r := Run(cfg, st, actions);
            r.spent && r.spentDirection == st.spentDirection && r.down == st.down && r.up == st.up
                && |r.transfers| == |st.transfers|
    ensures actions != [] ==> var o := Answer(cfg, st, actions); !o.Admitted? && !o.Passed? && (o.Granted? ==> o.n == 0)
  {
    if actions != [] { NothingBehindTheLatch(cfg, st, actions[..|actions| - 1]); }
  }

  // ---------------------------------------------------------------- the rate

  /** The clock never goes back. */
  predicate Ordered(actions: seq<Action>, since: real)
    decreases |actions|
  {
    if actions == [] then true
    else if actions[0].Admit? then
      since <= actions[0].t0 <= actions[0].t1 <= actions[0].t2 && Ordered(actions[1..], actions[0].t2)
    else Ordered(actions[1..], since)
  }

  /**
   The requests admitted between two moments, to one host or (None) to any; a host's token is taken at t2, the session's
   at t1.
   */
  function AdmittedWithin(cfg: Config, st: State, actions: seq<Action>, host: Option<string>, from: real, to: real): nat
    decreases |actions|
  {
    if actions == [] then 0
    else
      var (next, o) := Step(cfg, st, actions[0]);
      (if o.Admitted? && CountsFor(actions[0], host, from, to) then 1 else 0)
      + AdmittedWithin(cfg, next, actions[1..], host, from, to)
  }

  predicate CountsFor(a: Action, host: Option<string>, from: real, to: real) {
    a.Admit? && if host.Some? then a.host == host.value && from <= a.t2 <= to else from <= a.t1 <= to
  }

  /** The most a bucket can still let through in a window. */
  function Allowance(b: Bucket, cfg: Rate, from: real, to: real): real {
    if b.last > to then 0.0
    else if b.last < from then cfg.burst + Refill(cfg.rate, to - from)
    else b.tokens + Refill(cfg.rate, to - b.last)
  }

  predicate Filled(b: Bucket, cfg: Rate) { 0.0 <= b.tokens <= cfg.burst }

  lemma RefillAdds(rate: real, a: real, b: real)
    ensures Refill(rate, a) + Refill(rate, b) == Refill(rate, a + b)
  {
  }

  lemma RefillGrows(rate: real, a: real, b: real)
    requires rate > 0.0 && a <= b
    ensures Refill(rate, a) <= Refill(rate, b)
  {
    RefillAdds(rate, a, b - a);
    assert Refill(rate, b - a) >= 0.0;
  }

  /** One token taken, or none: the allowance pays for it. */
  lemma TakePays(b: Bucket, cfg: Rate, t: real, from: real, to: real)
    requires ValidRate(cfg) && cfg.rate > 0.0 && Filled(b, cfg) && b.last <= t && from <= to
    ensures Filled(Take(b, cfg, t).bucket, cfg) && Take(b, cfg, t).bucket.last == t
    ensures Allowance(Take(b, cfg, t).bucket, cfg, from, to)
        + (if Take(b, cfg, t).ok && from <= t <= to then 1.0 else 0.0)
         <= Allowance(b, cfg, from, to)
  {
    var r := Take(b, cfg, t);
    RefillGrows(cfg.rate, 0.0, t - b.last);
    if t > to {
      AllowancePositive(b, cfg, from, to);
    } else if from <= t {
      if b.last < from {
        RefillGrows(cfg.rate, to - t, to - from);
      } else {
        RefillAdds(cfg.rate, t - b.last, to - t);
      }
    }
  }

  /** Whatever the rate, a bucket is never below zero or above its burst, and its time only moves on. */
  lemma TakeFills(b: Bucket, cfg: Rate, t: real)
    requires ValidRate(cfg) && Filled(b, cfg) && b.last <= t
    ensures Filled(Take(b, cfg, t).bucket, cfg) && Take(b, cfg, t).bucket.last <= t
  {
    if cfg.rate > 0.0 { RefillGrows(cfg.rate, 0.0, t - b.last); }
  }

  lemma AllowancePositive(b: Bucket, cfg: Rate, from: real, to: real)
    requires cfg.rate > 0.0 && Filled(b, cfg) && from <= to
    ensures 0.0 <= Allowance(b, cfg, from, to) <= cfg.burst + Refill(cfg.rate, to - from)
  {
    RefillGrows(cfg.rate, 0.0, to - from);
    if from <= b.last <= to {
      RefillGrows(cfg.rate, 0.0, to - b.last);
      RefillGrows(cfg.rate, to - b.last, to - from);
    }
  }

  /** The buckets of a state hold what they may, and none was touched later than now. */
  ghost predicate Sane(cfg: Config, st: State, now: real) {
    && Filled(st.session, cfg.session) && st.session.last <= now
    && forall h :: h in st.hosts ==> Filled(st.hosts[h].bucket, cfg.host) && st.hosts[h].bucket.last <= now
  }

  /** What is left for a host, also before it was seen; and for the session. */
  function Left(cfg: Config, st: State, host: Option<string>, from: real, to: real): real {
    if host.None? then Allowance(st.session, cfg.session, from, to)
    else if host.value in st.hosts then Allowance(st.hosts[host.value].bucket, cfg.host, from, to)
    else cfg.host.burst + Refill(cfg.host.rate, to - from)
  }

  function Now(a: Action, since: real): real { if a.Admit? then a.t2 else since }

  lemma AdmissionPays(cfg: Config, st: State, a: Action, since: real, host: Option<string>, from: real, to: real)
    requires ValidConfig(cfg) && RateFor(cfg, host).rate > 0.0 && from <= to
    requires a.Admit? && Sane(cfg, st, since) && since <= a.t0 <= a.t1 <= a.t2
    ensures Sane(cfg, Step(cfg, st, a).0, a.t2)
    ensures Left(cfg, Step(cfg, st, a).0, host, from, to)
        + (if Step(cfg, st, a).1.Admitted? && CountsFor(a, host, from, to) then 1.0 else 0.0)
         <= Left(cfg, st, host, from, to)
  {
    var h := HostState(cfg, st, a.host, a.t0);
    TakeFills(st.session, cfg.session, a.t1);
    TakeFills(h.bucket, cfg.host, a.t2);
    if host.None? {
      TakePays(st.session, cfg.session, a.t1, from, to);
    } else {
      TakePays(h.bucket, cfg.host, a.t2, from, to);
      AllowancePositive(h.bucket, cfg.host, from, to);
    }
  }

  lemma StepPays(cfg: Config, st: State, a: Action, since: real, host: Option<string>, from: real, to: real)
    requires ValidConfig(cfg) && RateFor(cfg, host).rate > 0.0 && from <= to
    requires Sane(cfg, st, since) && (a.Admit? ==> since <= a.t0 <= a.t1 <= a.t2)
    ensures Sane(cfg, Step(cfg, st, a).0, Now(a, since))
    ensures Left(cfg, Step(cfg, st, a).0, host, from, to)
        + (if Step(cfg, st, a).1.Admitted? && CountsFor(a, host, from, to) then 1.0 else 0.0)
         <= Left(cfg, st, host, from, to)
  {
    if a.Admit? { AdmissionPays(cfg, st, a, since, host, from, to); }
  }

  lemma {:induction false} RunPays(cfg: Config, st: State, actions: seq<Action>, since: real, host: Option<string>,
        from: real, to: real)
    requires ValidConfig(cfg) && RateFor(cfg, host).rate > 0.0 && from <= to
    requires Sane(cfg, st, since) && Ordered(actions, since)
    ensures AdmittedWithin(cfg, st, actions, host, from, to) as real <= Left(cfg, st, host, from, to)
    decreases |actions|
  {
    if actions == [] {
      LeftPositive(cfg, st, host, from, to);
    } else {
      StepPays(cfg, st, actions[0], since, host, from, to);
      RunPays(cfg, Step(cfg, st, actions[0]).0, actions[1..], Now(actions[0], since), host, from, to);
    }
  }

  lemma LeftPositive(cfg: Config, st: State, host: Option<string>, from: real, to: real)
    requires ValidConfig(cfg) && RateFor(cfg, host).rate > 0.0 && from <= to
    requires Filled(st.session, cfg.session) && forall h :: h in st.hosts ==> Filled(st.hosts[h].bucket, cfg.host)
    ensures 0.0 <= Left(cfg, st, host, from, to) <= RateFor(cfg, host).burst
        + Refill(RateFor(cfg, host).rate, to - from)
  {
    RefillGrows(RateFor(cfg, host).rate, 0.0, to - from);
    if host.None? {
      AllowancePositive(st.session, cfg.session, from, to);
    } else if host.value in st.hosts {
      AllowancePositive(st.hosts[host.value].bucket, cfg.host, from, to);
    }
  }

  /**
   Within any stretch of time no more requests are admitted than the burst and what the rate adds in it: to any one
   host, and in all; however requests, tunnels, refusals, transfers and closes interleave.
   */
  lemma RateHolds(cfg: Config, t: real, actions: seq<Action>, host: Option<string>, from: real, to: real)
    requires ValidConfig(cfg) && RateFor(cfg, host).rate > 0.0 && from <= to && Ordered(actions, t)
    ensures AdmittedWithin(cfg, Start(cfg, t), actions, host, from, to) as real
         <= RateFor(cfg, host).burst + Refill(RateFor(cfg, host).rate, to - from)
  {
    RunPays(cfg, Start(cfg, t), actions, t, host, from, to);
    LeftPositive(cfg, Start(cfg, t), host, from, to);
  }

  /** So it is in every proxy that is given a rate, whatever else it is given. */
  lemma EveryProxyHolds(o: Options, t: real, actions: seq<Action>, host: Option<string>, from: real, to: real)
    requires RateFor(Configure(o), host).rate > 0.0 && from <= to && Ordered(actions, t)
    ensures AdmittedWithin(Configure(o), Start(Configure(o), t), actions, host, from, to) as real
         <= RateFor(Configure(o), host).burst + Refill(RateFor(Configure(o), host).rate, to - from)
  {
    ConfigureIff(o, Configure(o));
    RateHolds(Configure(o), t, actions, host, from, to);
  }

  /** The bucket after some requests at one moment, and how many of them it let through. */
  function TakeAll(b: Bucket, cfg: Rate, t: real, n: nat): (nat, Bucket) {
    if n == 0 then (0, b)
    else
      var (k, c) := TakeAll(b, cfg, t, n - 1);
      var r := Take(c, cfg, t);
      (if r.ok then k + 1 else k, r.bucket)
  }

  /**
   The bound is reached: of any number of requests at one moment a full bucket lets through its whole burst, and no
   more.
   */
  lemma {:induction false} BurstServed(b: Bucket, cfg: Rate, t: real, n: nat)
    requires ValidRate(cfg) && cfg.rate > 0.0 && b.tokens == cfg.burst && b.last <= t
    ensures var (k, c) := TakeAll(b, cfg, t, n);
            && k == Min(n, cfg.burst.Floor)
            && (n > 0 ==> c == Bucket(cfg.burst - k as real, t))
  {
    if n > 0 {
      BurstServed(b, cfg, t, n - 1);
      if n == 1 { RefillGrows(cfg.rate, 0.0, t - b.last); }
    }
  }

  /** A bucket that let nothing through serves again once the rate has put the missing part of a token into it. */
  lemma RefillServes(b: Bucket, cfg: Rate, t: real)
    requires ValidRate(cfg) && cfg.rate > 0.0 && Filled(b, cfg) && b.last <= t
    ensures Take(b, cfg, t).ok <==> b.tokens + Refill(cfg.rate, t - b.last) >= 1.0
  {
    RefillGrows(cfg.rate, 0.0, t - b.last);
  }
}
