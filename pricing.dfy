/**
 * The static model price table and the heuristic that turns a dollar cost
 * into an estimated token count.
 */
module Pricing {
  import opened ApiTypes
  import opened Text

  /** PRICING_DATA.models, dollars per million input and output tokens. */
  const Models: seq<ModelPricing> := [
    ModelPricing("gpt-4o", 5.00, 15.00),
    ModelPricing("gpt-4o-mini", 1.10, 4.40),
    ModelPricing("gpt-3.5-turbo", 0.50, 1.50)
  ]

  /** Rate used for a model that is not in the table, dollars per million tokens. */
  const DefaultRate: real := 1.0

  const TokensPerMillion: real := 1000000.0

  /** The first entry of `table` whose name equals `model` ignoring case. */
  function Lookup(table: seq<ModelPricing>, model: string): (r: Option<ModelPricing>)
    ensures r.Some? ==> r.value in table && ToLower(r.value.name) == ToLower(model)
    ensures r.None? ==> forall p :: p in table ==> ToLower(p.name) != ToLower(model)
  {
    if table == [] then None
    else if ToLower(table[0].name) == ToLower(model) then Some(table[0])
    else Lookup(table[1..], model)
  }

  /** Effective dollars per million tokens: the mean of input and output price. */
  function AverageRate(p: ModelPricing): real
  {
    (p.input_per_1M_tokens + p.output_per_1M_tokens) / 2.0
  }

  /** The rate the estimate divides by, for the given model name. */
  function RateFor(model: string): (rate: real)
    ensures rate == 10.0 || rate == 2.75 || rate == 1.0
    ensures Lookup(Models, model).None? ==> rate == DefaultRate
  {
    match Lookup(Models, model)
    case None => DefaultRate
    case Some(p) => AverageRate(p)
  }

  /** estimateTokensFromCost: the whole number of tokens `cost` buys at the model's rate. */
  function EstimateTokensFromCost(cost: real, model: string): (tokens: int)
    ensures tokens as real <= cost / RateFor(model) * TokensPerMillion < tokens as real + 1.0
    ensures cost >= 0.0 ==> tokens >= 0
  {
    (cost / RateFor(model) * TokensPerMillion).Floor
  }

  // The names in the table are already lower case.
  lemma Gpt4oIsLowerCase() ensures ToLower("gpt-4o") == "gpt-4o" { ToLowerIdentity("gpt-4o"); }
  lemma Gpt4oMiniIsLowerCase() ensures ToLower("gpt-4o-mini") == "gpt-4o-mini" { ToLowerIdentity("gpt-4o-mini"); }
  lemma Gpt35TurboIsLowerCase() ensures ToLower("gpt-3.5-turbo") == "gpt-3.5-turbo" { ToLowerIdentity("gpt-3.5-turbo"); }

  lemma LookupCons(p: ModelPricing, rest: seq<ModelPricing>, model: string)
    ensures Lookup([p] + rest, model) ==
      if ToLower(p.name) == ToLower(model) then Some(p) else Lookup(rest, model)
  {
    assert ([p] + rest)[1..] == rest;
  }

  /** The lookup over the fixed table, unfolded entry by entry. */
  lemma LookupModelsUnfolded(model: string)
    ensures Lookup(Models, model) ==
      if ToLower(model) == ToLower(Models[0].name) then Some(Models[0])
      else if ToLower(model) == ToLower(Models[1].name) then Some(Models[1])
      else if ToLower(model) == ToLower(Models[2].name) then Some(Models[2])
      else None
  {
    var m0, m1, m2 := Models[0], Models[1], Models[2];
    assert Models == [m0] + ([m1] + ([m2] + []));
    LookupCons(m0, [m1] + ([m2] + []), model);
    LookupCons(m1, [m2] + [], model);
    LookupCons(m2, [], model);
  }

  /** Any letter-case variant of "gpt-4o" is priced at (5 + 15) / 2 = 10 dollars per million tokens. */
  lemma Gpt4oRate(model: string)
    requires ToLower(model) == "gpt-4o"
    ensures Lookup(Models, model) == Some(Models[0])
    ensures RateFor(model) == 10.0
  {
    LookupModelsUnfolded(model);
    Gpt4oIsLowerCase();
  }

  /** Any letter-case variant of "gpt-4o-mini" is priced at (1.10 + 4.40) / 2 = 2.75. */
  lemma Gpt4oMiniRate(model: string)
    requires ToLower(model) == "gpt-4o-mini"
    ensures Lookup(Models, model) == Some(Models[1])
    ensures RateFor(model) == 2.75
  {
    LookupModelsUnfolded(model);
    Gpt4oMiniIsLowerCase();
    assert |ToLower(Models[0].name)| == 6;
  }

  /** Any letter-case variant of "gpt-3.5-turbo" is priced at (0.50 + 1.50) / 2 = 1. */
  lemma Gpt35TurboRate(model: string)
    requires ToLower(model) == "gpt-3.5-turbo"
    ensures Lookup(Models, model) == Some(Models[2])
    ensures RateFor(model) == 1.0
  {
    LookupModelsUnfolded(model);
    Gpt35TurboIsLowerCase();
    assert |ToLower(Models[0].name)| == 6 && |ToLower(Models[1].name)| == 11;
  }

  /** A name whose lower-case form is none of the three table names falls back to rate 1. */
  lemma UnknownModelRate(model: string)
    requires ToLower(model) != "gpt-4o" && ToLower(model) != "gpt-4o-mini"
    requires ToLower(model) != "gpt-3.5-turbo"
    ensures Lookup(Models, model).None?
    ensures RateFor(model) == DefaultRate
  {
    LookupModelsUnfolded(model);
    Gpt4oIsLowerCase();
    Gpt4oMiniIsLowerCase();
    Gpt35TurboIsLowerCase();
  }

  /** The placeholder model "api-usage" is not priced, so the fallback rate applies. */
  lemma ApiUsageUsesFallbackRate(cost: real)
    ensures Lookup(Models, "api-usage").None?
    ensures EstimateTokensFromCost(cost, "api-usage") == (cost * TokensPerMillion).Floor
  {
    assert |ToLower("api-usage")| == 9;
    UnknownModelRate("api-usage");
  }

  /** For a fixed model, a larger cost never yields fewer tokens. */
  lemma EstimateMonotonic(c1: real, c2: real, model: string)
    requires c1 <= c2
    ensures EstimateTokensFromCost(c1, model) <= EstimateTokensFromCost(c2, model)
  {
    var rate := RateFor(model);
    assert c1 / rate <= c2 / rate;
  }

  /** Doubling the cost doubles the estimate, up to one token of floor rounding. */
  lemma EstimateDoubling(cost: real, model: string)
    ensures 2 * EstimateTokensFromCost(cost, model) <= EstimateTokensFromCost(2.0 * cost, model)
    ensures EstimateTokensFromCost(2.0 * cost, model) <= 2 * EstimateTokensFromCost(cost, model) + 1
  {
    var rate := RateFor(model);
    var x := cost / rate * TokensPerMillion;
    assert 2.0 * cost / rate * TokensPerMillion == 2.0 * x;
  }
}
