// Client-side token pricing: a fixed per-model rate table in USD per 1000
// tokens, with a `default` entry used for every model it does not list
// (names inherited by every JavaScript object aside).
// Amounts are exact reals; the IEEE rounding of the original is not modelled.
module Cost {
  import JsObject

  datatype Rates = Rates(prompt: real, completion: real)

  const CostRates: map<string, Rates> := map[
    "gpt-4" := Rates(0.03, 0.06),
    "claude-3.5" := Rates(0.003, 0.015),
    "default" := Rates(0.01, 0.03)
  ]

  /** `COST_RATES[model] ?? COST_RATES.default`: a listed model's rates, the
      `default` rates for a name the table lacks, or the inherited member
      when the name is one of `Object.prototype`'s (it is not nullish). */
  function RatesFor(model: string): (r: JsObject.Property<Rates>)
    ensures model in CostRates ==> r == JsObject.Own(CostRates[model])
    ensures !Inherits(model) && model !in CostRates ==> r == JsObject.Own(CostRates["default"])
    ensures Inherits(model) ==> r == JsObject.Inherited(model)
    ensures r.Own? ==> r.value.prompt > 0.0 && r.value.completion > 0.0
  {
    JsObject.Nullish(JsObject.Get(CostRates, model), CostRates["default"])
  }

  /** A model name that reaches an `Object.prototype` member instead of a rate. */
  predicate Inherits(model: string)
  {
    model !in CostRates && model in JsObject.PrototypeNames
  }

  /** A computed cost: a number of USD, or `NaN` when the rates read are an
      inherited member, whose `prompt` and `completion` are `undefined`. */
  datatype Price = Usd(amount: real) | NaN

  function ComputeCost(tokensPrompt: int, tokensCompletion: int, model: string := "default"): (r: Price)
    ensures r.NaN? <==> Inherits(model)
  {
    match RatesFor(model)
    case Own(rates) =>
      Usd((tokensPrompt as real / 1000.0) * rates.prompt + (tokensCompletion as real / 1000.0) * rates.completion)
    case _ => NaN
  }

  lemma RateTableEntries()
    ensures CostRates.Keys == {"gpt-4", "claude-3.5", "default"}
    ensures CostRates["gpt-4"] == Rates(0.03, 0.06)
    ensures CostRates["claude-3.5"] == Rates(0.003, 0.015)
    ensures CostRates["default"] == Rates(0.01, 0.03)
  {
  }

  /** Omitting the model prices at the `default` rates, and so does any
      model missing from the table, except a name inherited from
      `Object.prototype`, which prices at `NaN`. */
  lemma DefaultModel(p: int, c: int, model: string)
    requires model !in CostRates
    ensures ComputeCost(p, c) == ComputeCost(p, c, "default") == Usd(p as real / 1000.0 * 0.01 + c as real / 1000.0 * 0.03)
    ensures model !in JsObject.PrototypeNames ==> ComputeCost(p, c, model) == ComputeCost(p, c)
    ensures model in JsObject.PrototypeNames ==> ComputeCost(p, c, model) == NaN
  {
  }

  /** 1000 prompt and 500 completion tokens on gpt-4 cost 0.03 + 0.03. */
  lemma Gpt4Example()
    ensures ComputeCost(1000, 500, "gpt-4") == Usd(0.06)
  {
  }

  lemma ZeroTokensCostNothing(model: string)
    ensures ComputeCost(0, 0, model) == if Inherits(model) then NaN else Usd(0.0)
  {
  }

  /** Costs are non-negative for non-negative counts and grow with each
      count; the result is `NaN` exactly for an inherited name. */
  lemma CostNonNegative(p: int, c: int, model: string)
    requires p >= 0 && c >= 0
    ensures ComputeCost(p, c, model).NaN? <==> Inherits(model)
    ensures ComputeCost(p, c, model).Usd? ==> ComputeCost(p, c, model).amount >= 0.0
  {
    if !Inherits(model) {
      var rates := RatesFor(model).value;
      MulNonNegative(p as real / 1000.0, rates.prompt);
      MulNonNegative(c as real / 1000.0, rates.completion);
    }
  }

  lemma CostMonotone(p: int, c: int, p': int, c': int, model: string)
    requires p <= p' && c <= c'
    ensures ComputeCost(p, c, model).NaN? <==> ComputeCost(p', c', model).NaN?
    ensures ComputeCost(p, c, model).Usd? ==> ComputeCost(p, c, model).amount <= ComputeCost(p', c', model).amount
  {
    if !Inherits(model) {
      var rates := RatesFor(model).value;
      MulMonotone(p as real / 1000.0, p' as real / 1000.0, rates.prompt);
      MulMonotone(c as real / 1000.0, c' as real / 1000.0, rates.completion);
    }
  }

  lemma MulNonNegative(x: real, k: real)
    requires x >= 0.0 && k >= 0.0
    ensures x * k >= 0.0
  {
  }

  lemma MulMonotone(x: real, y: real, k: real)
    requires x <= y && k >= 0.0
    ensures x * k <= y * k
  {
    MulNonNegative(y - x, k);
  }
}
