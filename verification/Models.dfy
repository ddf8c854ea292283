/**
 server/data/models.js: the choices of a picker, and what a chosen value means.
 */
module Models {
  import opened Prelude
  import opened Lines

  const OPENVIBE_AI := "openvibe-ai"
  const PIPE := '|'

  datatype Harness = Harness(id: string, name: string)

  /** A model "" is the agent's default. */
  const MODELS: map<string, seq<string>> := map[
    "claude-code" := ["opus", "sonnet", "haiku"],
    "deepseek" := ["deepseek-chat", "deepseek-reasoner"]]

  /** A choice of the picker; agent and model are None where Codes or the agent picks. */
  datatype Choice = Choice(value: string, agent: Option<string>, model: Option<string>)

  /** What a value means. */
  datatype Meaning = Meaning(agent: Option<string>, model: Option<string>)

  const AUTO := Choice("", None, None)

  function OrNone(s: string): Option<string> { if s == "" then None else Some(s) }

  function ModelsOf(id: string): seq<string> { if id in MODELS then MODELS[id] else [""] }

  function ChoiceOf(agent: string, model: string): Choice { Choice(agent + [PIPE] + model, Some(agent), OrNone(model)) }

  function ChoicesFor(agent: string, models: seq<string>): seq<Choice> {
    if models == [] then [] else ChoicesFor(agent, models[..|models| - 1]) + [ChoiceOf(agent, models[|models| - 1])]
  }

  /** The models offered for an agent: OpenVibe.AI's come from its catalog when there is one. */
  function Offered(id: string, catalog: seq<string>): seq<string> {
    if id == OPENVIBE_AI && catalog != [] then catalog else ModelsOf(id)
  }

  function ChoicesOf(harnesses: seq<Harness>, catalog: seq<string>): seq<Choice> {
    if harnesses == [] then [AUTO]
    else
      var h := harnesses[|harnesses| - 1];
      ChoicesOf(harnesses[..|harnesses| - 1], catalog) + ChoicesFor(h.id, Offered(h.id, catalog))
  }

  /** `choices` */
  method Choices(harnesses: seq<Harness>, catalog: seq<string>) returns (out: seq<Choice>)
    ensures out == ChoicesOf(harnesses, catalog)
  {
    out := [AUTO];
    for i := 0 to |harnesses|
      invariant out == ChoicesOf(harnesses[..i], catalog)
    {
      assert harnesses[..i + 1][..i] == harnesses[..i];
      var id := harnesses[i].id;
      var models := Offered(id, catalog);
      ghost var before := out;
      for k := 0 to |models|
        invariant out == before + ChoicesFor(id, models[..k])
      {
        assert models[..k + 1][..k] == models[..k];
        out := out + [ChoiceOf(id, models[k])];
      }
      assert models[..|models|] == models;
    }
    assert harnesses[..|harnesses|] == harnesses;
  }

  predicate Knows(harnesses: seq<Harness>, agent: string) {
    exists i :: 0 <= i < |harnesses| && harnesses[i].id == agent
  }

  /** `parse`: None when the value names nothing Codes offers. */
  function Parse(value: string, harnesses: seq<Harness>, aiCatalog: bool): Option<Meaning> {
    if value == "" then Some(Meaning(None, None))
    else
      var parts := Split(value, PIPE);
      var agent, model := parts[0], if |parts| > 1 then parts[1] else "";
      if !Knows(harnesses, agent) then None
      else if agent == OPENVIBE_AI && aiCatalog then Some(Meaning(Some(agent), OrNone(model)))
      else if model != "" && model !in ModelsOf(agent) then None
      else Some(Meaning(Some(agent), OrNone(model)))
  }

  /** A value never means an agent that Codes does not offer, nor a model that this agent does not have. */
  lemma MeaningKnown(value: string, harnesses: seq<Harness>, aiCatalog: bool, m: Meaning)
    requires Parse(value, harnesses, aiCatalog) == Some(m)
    ensures if value == "" then m == Meaning(None, None) else m.agent.Some? && Knows(harnesses, m.agent.value)
    ensures m.model.Some? ==> m.agent.Some? && m.model.value != ""
    ensures m.model.Some? ==> m.model.value in ModelsOf(m.agent.value) || (m.agent.value == "openvibe-ai" && aiCatalog)
  {
  }

  lemma {:induction false} ChoicesForAll(agent: string, models: seq<string>, m: string)
    requires m in models
    ensures ChoiceOf(agent, m) in ChoicesFor(agent, models)
  {
    var n := |models| - 1;
    if models[n] != m { ChoicesForAll(agent, models[..n], m); }
  }

  /**
   Auto comes first, every model of every agent is offered, and every agent has one: its catalog, its list or its
   default.
   */
  lemma {:induction false} EveryModelOffered(harnesses: seq<Harness>, catalog: seq<string>, i: nat, m: string)
    requires i < |harnesses|
    requires harnesses[i].id == "openvibe-ai" && catalog != [] ==> m in catalog
    requires !(harnesses[i].id == "openvibe-ai" && catalog != []) ==> m in ModelsOf(harnesses[i].id)
    ensures ChoiceOf(harnesses[i].id, m) in ChoicesOf(harnesses, catalog) && ChoicesOf(harnesses, catalog)[0] == AUTO
    ensures ModelsOf(harnesses[i].id) != []
  {
    var n := |harnesses| - 1;
    if i < n {
      EveryModelOffered(harnesses[..n], catalog, i, m);
    } else {
      ChoicesForAll(harnesses[n].id, Offered(harnesses[n].id, catalog), m);
      AutoFirst(harnesses[..n], catalog);
    }
  }

  lemma {:induction false} AutoFirst(harnesses: seq<Harness>, catalog: seq<string>)
    ensures ChoicesOf(harnesses, catalog) != [] && ChoicesOf(harnesses, catalog)[0] == AUTO
  {
    if harnesses != [] { AutoFirst(harnesses[..|harnesses| - 1], catalog); }
  }

  // ---------------------------------------------------------------- the round trip

  /** A value's first two parts. */
  lemma PartsOf(agent: string, model: string)
    requires PIPE !in agent
    ensures var parts := Split(agent + [PIPE] + model, PIPE);
            |parts| >= 2 && parts[0] == agent && parts[1] == if PIPE in model then model[..First(model, PIPE)]
                else model
  {
    CompleteCons(agent, model, PIPE);
    if PIPE in model { assert Complete(model, PIPE)[0] == model[..First(model, PIPE)]; }
  }

  lemma {:induction false} ChoicesForAre(agent: string, models: seq<string>)
    ensures forall c :: c in ChoicesFor(agent, models) ==> exists m :: m in models && c == ChoiceOf(agent, m)
  {
    if models != [] {
      var n := |models| - 1;
      ChoicesForAre(agent, models[..n]);
      assert models[n] in models;
      forall c | c in ChoicesFor(agent, models[..n]) ensures exists m :: m in models && c == ChoiceOf(agent, m) {
        var m :| m in models[..n] && c == ChoiceOf(agent, m);
        assert m in models;
      }
    }
  }

  /** Every choice but Auto is an agent's offered model. */
  lemma {:induction false} ChoicesAre(harnesses: seq<Harness>, catalog: seq<string>, c: Choice)
    requires c in ChoicesOf(harnesses, catalog) && c != AUTO
    ensures exists i, m ::
        0 <= i < |harnesses| && m in Offered(harnesses[i].id, catalog) && c == ChoiceOf(harnesses[i].id, m)
  {
    var n := |harnesses| - 1;
    if c in ChoicesOf(harnesses[..n], catalog) {
      ChoicesAre(harnesses[..n], catalog, c);
      var i, m :| 0 <= i < n && m in Offered(harnesses[..n][i].id, catalog) && c == ChoiceOf(harnesses[..n][i].id, m);
      assert harnesses[i] == harnesses[..n][i];
    } else {
      ChoicesForAre(harnesses[n].id, Offered(harnesses[n].id, catalog));
      var m :| m in Offered(harnesses[n].id, catalog) && c == ChoiceOf(harnesses[n].id, m);
    }
  }

  /** What a value whose parts are known means. */
  lemma ParseOf(value: string, agent: string, model: string, harnesses: seq<Harness>, aiCatalog: bool)
    requires value != "" && Knows(harnesses, agent)
    requires var parts := Split(value, PIPE); |parts| >= 2 && parts[0] == agent && parts[1] == model
    ensures Parse(value, harnesses, aiCatalog)
         == if (agent == OPENVIBE_AI && aiCatalog) || model == "" || model in ModelsOf(agent)
             then Some(Meaning(Some(agent), OrNone(model))) else None
  {
  }

  /** An offered value of an agent without a bar in its id is read back exactly when its model has none. */
  lemma ReadBackIff(harnesses: seq<Harness>, catalog: seq<string>, aiCatalog: bool, agent: string, m: string)
    requires Knows(harnesses, agent) && m in Offered(agent, catalog) && (catalog != [] ==> aiCatalog) && PIPE !in agent
    ensures Parse(ChoiceOf(agent, m).value, harnesses, aiCatalog) == Some(Meaning(Some(agent), OrNone(m)))
        <==> PIPE !in m
  {
    var value := agent + [PIPE] + m;
    PartsOf(agent, m);
    var first := if PIPE in m then m[..First(m, PIPE)] else m;
    ParseOf(value, agent, first, harnesses, aiCatalog);
    if PIPE in m { Shorter(m, First(m, PIPE)); }
  }

  lemma Shorter(m: string, i: nat)
    requires i < |m|
    ensures OrNone(m[..i]) != OrNone(m)
  {
    assert |m[..i]| < |m|;
  }

  /** Parsing undoes choosing, for everything a picker offers whose ids hold no bar. */
  lemma ParseUndoesChoices(harnesses: seq<Harness>, catalog: seq<string>, aiCatalog: bool, c: Choice)
    requires c in ChoicesOf(harnesses, catalog) && (catalog != [] ==> aiCatalog)
    requires (forall h :: h in harnesses ==> PIPE !in h.id) && forall m :: m in catalog ==> PIPE !in m
    ensures Parse(c.value, harnesses, aiCatalog) == Some(Meaning(c.agent, c.model))
  {
    if c != AUTO {
      ChoicesAre(harnesses, catalog, c);
      var i, m :| 0 <= i < |harnesses| && m in Offered(harnesses[i].id, catalog) && c == ChoiceOf(harnesses[i].id, m);
      assert harnesses[i] in harnesses;
      assert PIPE !in m by {
        if m !in catalog { BarelessModels(harnesses[i].id, m); }
      }
      assert Knows(harnesses, harnesses[i].id);
      ReadBackIff(harnesses, catalog, aiCatalog, harnesses[i].id, m);
    }
  }

  lemma BarelessModels(id: string, m: string)
    requires m in ModelsOf(id)
    ensures PIPE !in m
  {
  }
}
