/** The `params` dictionary the optimiser reads, as a record of optional
    entries: `None` is a key that is absent, so that `params.get(k, d)` is
    `Get(p.k, d)`.  Only the keys the optimiser and the plan builder use are
    represented, each with the type those callers give it. */
module Params {
  import opened Common

  /** The five error weights `(α, β, γ, δ, ε)` of the fitness function. */
  datatype Weights = Weights(alpha: real, beta: real, gamma: real, delta: real, eps: real)

  const DefaultWeights := Weights(4.0, 3.2, 1.8, 1.2, 1.0)

  datatype Params = Params(
    nRefeicoes: Option<int>,
    restricoes: Option<map<string, seq<string>>>,
    orcamentoMax: Option<real>,
    tabelaCsv: Option<string>,
    pop: Option<int>,
    ger: Option<int>,
    elit: Option<int>,
    seed: Option<int>,
    pesos: Option<Weights>,
    densThr: Option<real>,
    lowKcalBias: Option<real>,
    mealCarbMin: Option<real>,
    mealCarbWeight: Option<real>,
    mealProtMin: Option<real>,
    mealProtWeight: Option<real>)

  /** A dictionary with none of the keys. */
  const NoParams := Params(None, None, None, None, None, None, None, None, None, None, None, None, None, None, None)

  /** `d.get(k, default)`. */
  function Get<T>(o: Option<T>, default: T): T {
    if o.Some? then o.value else default
  }

  function Over<T>(base: Option<T>, over: Option<T>): Option<T> {
    if over.Some? then over else base
  }

  /** `{**base, **over}`: every key present in `over` replaces the one in `base`. */
  function Merge(base: Params, over: Params): Params {
    Params(
      Over(base.nRefeicoes, over.nRefeicoes),
      Over(base.restricoes, over.restricoes),
      Over(base.orcamentoMax, over.orcamentoMax),
      Over(base.tabelaCsv, over.tabelaCsv),
      Over(base.pop, over.pop),
      Over(base.ger, over.ger),
      Over(base.elit, over.elit),
      Over(base.seed, over.seed),
      Over(base.pesos, over.pesos),
      Over(base.densThr, over.densThr),
      Over(base.lowKcalBias, over.lowKcalBias),
      Over(base.mealCarbMin, over.mealCarbMin),
      Over(base.mealCarbWeight, over.mealCarbWeight),
      Over(base.mealProtMin, over.mealProtMin),
      Over(base.mealProtWeight, over.mealProtWeight))
  }

  /** Merging in a dictionary with no keys changes nothing, and merging is
      associative, as dictionary unpacking is. */
  lemma MergeLaws(a: Params, b: Params, c: Params)
    ensures Merge(a, NoParams) == a
    ensures Merge(Merge(a, b), c) == Merge(a, Merge(b, c))
  {
  }
}
