/**
 engine/effort.js `fitEffort` and `pickModel`, and engine/adapters/base.js `effortFor`: a reasoning level rounded to the
 nearest one a harness accepts, written twice, and a refused model replaced.
 */
module Effort {
  import opened Prelude

  /** The levels the source knows, and any other text. */
  datatype Level = Off | Zero | Minimal | Low | Medium | High | XHigh | Highest | Ultra | Other(text: string)

  /** Every level, from the weakest to the strongest ("none" is Zero, "max" is Highest). */
  const ORDER := [Off, Zero, Minimal, Low, Medium, High, XHigh, Highest, Ultra]

  const EFFORTS: map<string, seq<Level>> := map[
    "cx" := [Low, Medium, High, XHigh, Highest, Ultra],
    "cc" := [Off, Low, High, Highest],
    "mm" := [Low, Medium, High, XHigh, Highest],
    "cm" := [Low, Medium, High, XHigh, Highest],
    "pg" := [Low, Medium, High, Highest],
    "cd" := [Low, High, Highest],
    "claude" := [Low, Medium, High, XHigh, Highest],
    "dsh" := [Zero, Low, High, Highest],
    "oc" := []]

  const ALIASES: map<string, string> := map[
    "claude-code" := "claude", "codex" := "cx", "command-code" := "cc", "opencode" := "oc", "deepseek" := "dsh",
    "minimax" := "mm", "grove" := "pg"]

  /** The table of engine/adapters/base.js. */
  const EFFORT_LEVELS: map<string, seq<Level>> := map[
    "claude-code" := [Low, Medium, High, XHigh, Highest],
    "claude-other" := [Low, Medium, High, XHigh, Highest],
    "codex" := [Low, Medium, High, XHigh, Highest, Ultra],
    "command-code" := [Off, Low, High, Highest],
    "opencode" := [],
    "aider" := [Low, Medium, High],
    "minimax-code" := [Low, Medium, High, XHigh, Highest]]

  /** The short runner id of a harness; `key` is its name in lower case. */
  function HarnessOf(key: string): string { if key in ALIASES then ALIASES[key] else key }

  function LevelsOf(table: map<string, seq<Level>>, key: string): seq<Level> { if key in table then table[key] else [] }

  // ---------------------------------------------------------------- the search

  /** `ORDER.indexOf(level)` */
  function Rank(l: Level): (i: int)
    ensures -1 <= i < |ORDER|
    ensures if i >= 0 then ORDER[i] == l else l.Other?
  {
    match l
    case Off => 0
    case Zero => 1
    case Minimal => 2
    case Low => 3
    case Medium => 4
    case High => 5
    case XHigh => 6
    case Highest => 7
    case Ultra => 8
    case Other(_) => -1
  }

  function Abs(x: int): nat { if x < 0 then -x else x }

  /** `list.includes(ORDER[i])`, which is false outside the order. */
  predicate Listed(list: seq<Level>, i: int) { 0 <= i < |ORDER| && ORDER[i] in list }

  /** The nearest listed level at a distance of at least d; at equal distances the stronger one. */
  function Nearest(list: seq<Level>, at: int, d: nat): Option<Level>
    decreases |ORDER| - d
  {
    if d >= |ORDER| then None
    else if Listed(list, at + d) then Some(ORDER[at + d])
    else if Listed(list, at - d) then Some(ORDER[at - d])
    else Nearest(list, at, d + 1)
  }

  /** A level fitted to a list; None, and what nobody knows, pass through. */
  function Fit(list: seq<Level>, effort: Option<Level>): Option<Level> {
    if effort.None? || list == [] || effort.value in list || effort.value.Other? then effort
    else
      var n := Nearest(list, Rank(effort.value), 0);
      if n.Some? then n else effort
  }

  method FitList(list: seq<Level>, effort: Option<Level>) returns (r: Option<Level>)
    ensures r == Fit(list, effort)
  {
    if effort.None? || list == [] || effort.value in list { return effort; }
    var at := Rank(effort.value);
    if at < 0 { return effort; }
    for d := 0 to |ORDER|
      invariant Nearest(list, at, d) == Nearest(list, at, 0)
    {
      if Listed(list, at + d) { return Some(ORDER[at + d]); }
      if Listed(list, at - d) { return Some(ORDER[at - d]); }
    }
    return effort;
  }

  /** `fitEffort` */
  method FitEffort(key: string, effort: Option<Level>) returns (r: Option<Level>)
    ensures r == Fit(LevelsOf(EFFORTS, HarnessOf(key)), effort)
  {
    r := FitList(LevelsOf(EFFORTS, HarnessOf(key)), effort);
  }

  /** `effortFor` */
  method EffortFor(id: string, effort: Option<Level>) returns (r: Option<Level>)
    ensures r == Fit(LevelsOf(EFFORT_LEVELS, id), effort)
  {
    r := FitList(LevelsOf(EFFORT_LEVELS, id), effort);
  }

  // ---------------------------------------------------------------- what the rounding keeps

  /** A list of levels the source knows, with at least one. */
  ghost predicate KnownLevels(list: seq<Level>) { list != [] && forall l :: l in list ==> !l.Other? }

  /** b is not a better choice than a for the wanted rank: farther away, or as far and not stronger. */
  predicate NoBetter(at: int, a: Level, b: Level) {
    Abs(Rank(a) - at) < Abs(Rank(b) - at) || (Abs(Rank(a) - at) == Abs(Rank(b) - at) && Rank(b) <= Rank(a))
  }

  ghost predicate IsNearest(list: seq<Level>, at: int, r: Level) {
    r in list && !r.Other? && forall l :: l in list && !l.Other? ==> NoBetter(at, r, l)
  }

  /** No listed level is nearer than d. */
  ghost predicate NoneWithin(list: seq<Level>, at: int, d: nat) {
    forall l :: l in list && !l.Other? ==> Abs(Rank(l) - at) >= d
  }

  lemma RankOfOrder(i: int)
    requires 0 <= i < |ORDER|
    ensures Rank(ORDER[i]) == i && !ORDER[i].Other?
  {
  }

  lemma ListedRank(list: seq<Level>, l: Level)
    requires l in list && !l.Other?
    ensures Listed(list, Rank(l))
  {
  }

  lemma FoundNearest(list: seq<Level>, at: int, d: nat, i: int)
    requires NoneWithin(list, at, d) && Listed(list, i) && (i == at + d || (i == at - d && !Listed(list, at + d)))
    ensures IsNearest(list, at, ORDER[i])
  {
    RankOfOrder(i);
    forall l | l in list && !l.Other? ensures NoBetter(at, ORDER[i], l) { ListedRank(list, l); }
  }

  lemma NoneCloser(list: seq<Level>, at: int, d: nat)
    requires NoneWithin(list, at, d) && !Listed(list, at + d) && !Listed(list, at - d)
    ensures NoneWithin(list, at, d + 1)
  {
    forall l | l in list && !l.Other? ensures Abs(Rank(l) - at) >= d + 1 { ListedRank(list, l); }
  }

  lemma NoneAtAll(list: seq<Level>, at: int)
    requires 0 <= at < |ORDER| && NoneWithin(list, at, |ORDER|)
    ensures forall l :: l in list ==> l.Other?
  {
    assert forall l: Level :: !l.Other? ==> Abs(Rank(l) - at) < |ORDER|;
  }

  lemma {:induction false} NearestIsNearest(list: seq<Level>, at: int, d: nat)
    requires 0 <= at < |ORDER| && NoneWithin(list, at, d) && d <= |ORDER|
    ensures if Nearest(list, at, d).Some? then IsNearest(list, at, Nearest(list, at, d).value)
            else forall l :: l in list ==> l.Other?
    decreases |ORDER| - d
  {
    if d == |ORDER| {
      NoneAtAll(list, at);
    } else if Listed(list, at + d) {
      FoundNearest(list, at, d, at + d);
    } else if Listed(list, at - d) {
      FoundNearest(list, at, d, at - d);
    } else {
      NoneCloser(list, at, d);
      NearestIsNearest(list, at, d + 1);
    }
  }

  /** No level, a level nobody knows, and any level for a harness without levels pass as they are. */
  lemma OthersPass(list: seq<Level>, text: string)
    ensures Fit(list, None) == None && Fit(list, Some(Other(text))) == Some(Other(text))
    ensures forall e :: Fit([], e) == e
  {
  }

  /** For any list of known levels and any known level wanted: the nearest listed one, ties going up. */
  lemma FitIsNearest(list: seq<Level>, effort: Level)
    requires KnownLevels(list) && !effort.Other?
    ensures Fit(list, Some(effort)).Some? && IsNearest(list, Rank(effort), Fit(list, Some(effort)).value)
  {
    if effort in list {
      assert IsNearest(list, Rank(effort), effort);
    } else {
      assert NoneWithin(list, Rank(effort), 0);
      NearestIsNearest(list, Rank(effort), 0);
      assert list[0] in list && !list[0].Other?;
    }
  }

  /** Fitting twice is fitting once, and a stronger wish never gets a weaker level. */
  lemma FitIdempotentMonotone(list: seq<Level>, a: Level, b: Level)
    requires KnownLevels(list) && !a.Other? && !b.Other?
    ensures Fit(list, Fit(list, Some(a))) == Fit(list, Some(a))
    ensures Rank(a) <= Rank(b) ==> Rank(Fit(list, Some(a)).value) <= Rank(Fit(list, Some(b)).value)
  {
    FitIsNearest(list, a);
    FitIsNearest(list, b);
    var x, y := Fit(list, Some(a)).value, Fit(list, Some(b)).value;
    assert NoBetter(Rank(a), x, y) && NoBetter(Rank(b), y, x);
  }

  // ---------------------------------------------------------------- the two implementations

  /** The two tables name the same levels for a harness. */
  predicate SameTables(id: string) { LevelsOf(EFFORTS, HarnessOf(id)) == LevelsOf(EFFORT_LEVELS, id) }

  const SHARED := {"claude-code", "codex", "command-code", "opencode"}

  lemma SharedTables(id: string)
    requires id in SHARED
    ensures SameTables(id)
  {
  }

  /**
   The rounding in engine/effort.js and the one in the adapters agree on every level, for a harness the adapters know,
   exactly for four of them: the others are not in both tables under names that match.
   */
  lemma AgreeIffShared(id: string)
    requires id in EFFORT_LEVELS
    ensures (forall effort ::
        Fit(LevelsOf(EFFORTS, HarnessOf(id)), effort) == Fit(LevelsOf(EFFORT_LEVELS, id), effort)) <==> id in SHARED
  {
    if id in SHARED {
      SharedTables(id);
    } else {
      NotShared(id);
      FitIsNearest(LevelsOf(EFFORT_LEVELS, id), Off);
      assert Fit(LevelsOf(EFFORTS, HarnessOf(id)), Some(Off)) != Fit(LevelsOf(EFFORT_LEVELS, id), Some(Off));
    }
  }

  /** The other harnesses are not in the first table at all, and in the second without the extremes. */
  lemma NotShared(id: string)
    requires id in EFFORT_LEVELS && id !in SHARED
    ensures LevelsOf(EFFORTS, HarnessOf(id)) == [] && KnownLevels(LevelsOf(EFFORT_LEVELS, id))
    ensures Off !in LevelsOf(EFFORT_LEVELS, id) && Ultra !in LevelsOf(EFFORT_LEVELS, id)
  {
    assert id in {"claude-other", "aider", "minimax-code"};
  }

  // ---------------------------------------------------------------- blocked models

  datatype Picked = Model(name: string) | Refused

  /** The first model that is not blocked. */
  function FirstAllowed(list: seq<string>, blocked: seq<string>): (r: Option<string>)
    ensures r.Some? ==> r.value in list && r.value !in blocked
    ensures r.None? ==> forall m :: m in list ==> m in blocked
  {
    if list == [] then None else if list[0] !in blocked then Some(list[0]) else FirstAllowed(list[1..], blocked)
  }

  /** `pickModel`; "" is no model. */
  function PickModel(model: string, catalog: seq<string>, blocked: seq<string>): Picked {
    if model == "" || model !in blocked then Model(model)
    else
      var r := FirstAllowed(catalog, blocked);
      if r.Some? && r.value != "" then Model(r.value) else Refused
  }

  /** Place i of the list holds the first model that is not blocked. */
  ghost predicate FirstOpen(list: seq<string>, blocked: seq<string>, i: nat) {
    i < |list| && list[i] !in blocked && forall j :: 0 <= j < i ==> list[j] in blocked
  }

  lemma {:induction false} FirstAllowedAt(list: seq<string>, blocked: seq<string>)
    ensures var r := FirstAllowed(list, blocked);
            if r.Some? then exists i: nat ::
                FirstOpen(list, blocked, i) && list[i] == r.value else forall i: nat :: !FirstOpen(list, blocked, i)
  {
    if list != [] {
      FirstAllowedAt(list[1..], blocked);
      if list[0] !in blocked {
        assert FirstOpen(list, blocked, 0);
      } else if FirstAllowed(list[1..], blocked).Some? {
        var i: nat :| FirstOpen(list[1..], blocked, i) && list[1..][i] == FirstAllowed(list, blocked).value;
        assert forall j :: 0 < j <= i ==> list[j] == list[1..][j - 1];
        assert FirstOpen(list, blocked, i + 1);
      }
    }
  }

  /**
   No launch is ever given a refused model; a model that was not refused stays; it is an error exactly when a refused
   one is wanted and the list has no other left, or the first left is no model.
   */
  lemma NeverBlocked(model: string, catalog: seq<string>, blocked: seq<string>)
    ensures var r := PickModel(model, catalog, blocked);
            && (r.Model? ==> r.name == "" || r.name !in blocked)
            && (model == "" || model !in blocked ==> r == Model(model))
            && (r.Refused? <==> model != "" && model in blocked && forall i: nat ::
              FirstOpen(catalog, blocked, i) ==> catalog[i] == "")
            && (r.Model? && model != "" && model in blocked
              ==> exists i: nat :: FirstOpen(catalog, blocked, i) && r.name == catalog[i])
  {
    FirstAllowedAt(catalog, blocked);
  }
}
