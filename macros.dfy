/** The macronutrient targets of `calcular_macros`
    (assets/fuzzy_module/calcular_macros.py): the inputs are clamped to the
    ranges of the fuzzy universes, a Mamdani system of 27 rules turns them into
    carbohydrate, protein and fat percentages, the percentages are rescaled to
    sum to 100, and each share of the energy target becomes grams at 4, 4 and
    9 kcal per gram, rounded half to even.  The fuzzy inference itself (the
    membership functions, rule firing and centroid defuzzification of the
    skfuzzy library) is the parameter `infer`. */
module Macros {
  import opened Common
  import opened Energy

  // ---------------------------------------------------------------------------
  // _clamp
  // ---------------------------------------------------------------------------

  /** `max(lo, min(hi, v))`. */
  function Clamp(v: int, lo: int, hi: int): (r: int)
    ensures v < lo ==> r == lo
    ensures lo <= hi && v > hi ==> r == hi
    ensures lo <= v <= hi ==> r == v
    ensures lo <= hi ==> lo <= r <= hi
  {
    Max(lo, Min(hi, v))
  }

  /** Clamping twice into the same range changes nothing more. */
  lemma ClampIdempotent(v: int, lo: int, hi: int)
    requires lo <= hi
    ensures Clamp(Clamp(v, lo, hi), lo, hi) == Clamp(v, lo, hi)
  {
  }

  // ---------------------------------------------------------------------------
  // The rule base
  // ---------------------------------------------------------------------------

  /** The objective labels `cutting`, `manutencao`, `bulking`. */
  datatype Objective = Cutting | Maintenance | Bulking

  /** The three labels of every other variable: `baixa`/`baixo`,
      `moderada`/`medio`/`media` and `alta`/`alto`. */
  datatype Level = Low | Mid | High

  /** `ctrl.Rule(objetivo[o] & atividade[a] & colesterol[c], (carbo[..], proteina[..], gordura[..]))`. */
  datatype Rule = Rule(obj: Objective, act: Level, chol: Level, carb: Level, prot: Level, fat: Level)

  /** The rule list `regras`, in the source's order. */
  const Rules: seq<Rule> := [
    Rule(Cutting, Low, Low, Mid, High, Mid),
    Rule(Cutting, Low, Mid, Mid, High, Mid),
    Rule(Cutting, Low, High, Low, High, Low),
    Rule(Cutting, Mid, Low, Mid, High, Mid),
    Rule(Cutting, Mid, Mid, Mid, High, Mid),
    Rule(Cutting, Mid, High, Low, High, Low),
    Rule(Cutting, High, Low, Mid, High, Mid),
    Rule(Cutting, High, Mid, Mid, High, Mid),
    Rule(Cutting, High, High, Low, High, Low),
    Rule(Maintenance, Low, Low, Mid, Mid, Mid),
    Rule(Maintenance, Low, Mid, Mid, Mid, Mid),
    Rule(Maintenance, Low, High, Low, Mid, Low),
    Rule(Maintenance, Mid, Low, Mid, Mid, Mid),
    Rule(Maintenance, Mid, Mid, Mid, Mid, Mid),
    Rule(Maintenance, Mid, High, Mid, Mid, Low),
    Rule(Maintenance, High, Low, High, Mid, Mid),
    Rule(Maintenance, High, Mid, High, Mid, Mid),
    Rule(Maintenance, High, High, Mid, Mid, Mid),
    Rule(Bulking, Low, Low, Mid, High, Mid),
    Rule(Bulking, Low, Mid, Mid, High, Mid),
    Rule(Bulking, Low, High, Mid, High, Low),
    Rule(Bulking, Mid, Low, High, High, Mid),
    Rule(Bulking, Mid, Mid, Mid, High, Mid),
    Rule(Bulking, Mid, High, Mid, High, Low),
    Rule(Bulking, High, Low, High, High, High),
    Rule(Bulking, High, Mid, High, High, Mid),
    Rule(Bulking, High, High, Mid, High, Low)
  ]

  function ObjectiveRank(o: Objective): nat {
    match o
    case Cutting => 0
    case Maintenance => 1
    case Bulking => 2
  }

  function LevelRank(l: Level): nat {
    match l
    case Low => 0
    case Mid => 1
    case High => 2
  }

  /** Where the rule for a label triple sits: objective, then activity, then
      cholesterol, each in the order low, middle, high. */
  function RuleIndex(o: Objective, a: Level, c: Level): (i: nat)
    ensures i < 27
  {
    9 * ObjectiveRank(o) + 3 * LevelRank(a) + LevelRank(c)
  }

  predicate Premise(r: Rule, o: Objective, a: Level, c: Level) {
    r.obj == o && r.act == a && r.chol == c
  }

  /** Exactly 27 rules, and every label triple has its rule at `RuleIndex`. */
  lemma RulesCover(o: Objective, a: Level, c: Level)
    ensures |Rules| == 27
    ensures Premise(Rules[RuleIndex(o, a, c)], o, a, c)
  {
  }

  /** No two rules share a premise, so each triple has exactly one rule. */
  lemma RulesUnique(i: int, j: int)
    requires 0 <= i < |Rules| && 0 <= j < |Rules|
    requires Premise(Rules[i], Rules[j].obj, Rules[j].act, Rules[j].chol)
    ensures i == j
  {
    RuleAtIndex(i);
    RuleAtIndex(j);
  }

  lemma RuleAtIndex(k: int)
    requires 0 <= k < |Rules|
    ensures RuleIndex(Rules[k].obj, Rules[k].act, Rules[k].chol) == k
  {
  }

  /** Cutting and bulking rules conclude high protein, maintenance rules middle protein. */
  lemma ProteinByObjective(r: Rule)
    requires r in Rules
    ensures r.obj == Maintenance ==> r.prot == Mid
    ensures r.obj != Maintenance ==> r.prot == High
  {
  }

  /** A high cholesterol never leads to high carbohydrate or high fat, and the
      only rule concluding high fat is bulking with high activity and low
      cholesterol. */
  lemma HighCholesterolIsCautious(r: Rule)
    requires r in Rules
    ensures r.chol == High ==> r.carb != High && r.fat != High
    ensures r.fat == High <==> Premise(r, Bulking, High, Low)
  {
  }

  // ---------------------------------------------------------------------------
  // calcular_macros
  // ---------------------------------------------------------------------------

  /** The inputs `objetivo`, `atividade`, `colesterol` clamped to [0, 2],
      [0, 10] and [0, 300]. */
  datatype Inputs = Inputs(objetivo: int, atividade: int, colesterol: int)

  function Sanitize(objetivo: int, atividade: int, colesterol: int): (r: Inputs)
    ensures 0 <= r.objetivo <= 2 && 0 <= r.atividade <= 10 && 0 <= r.colesterol <= 300
    ensures 0 <= objetivo <= 2 ==> r.objetivo == objetivo
    ensures 0 <= atividade <= 10 ==> r.atividade == atividade
    ensures 0 <= colesterol <= 300 ==> r.colesterol == colesterol
  {
    Inputs(Clamp(objetivo, 0, 2), Clamp(atividade, 0, 10), Clamp(colesterol, 0, 300))
  }

  /** Percentages of the energy target, `(carbo, proteina, gordura)`. */
  datatype Shares = Shares(carb: real, prot: real, fat: real)

  function Sum(s: Shares): real {
    s.carb + s.prot + s.fat
  }

  /** `x / total * 100` for each share. */
  function Normalize(raw: Shares): (r: Shares)
    requires Sum(raw) != 0.0
    ensures Sum(r) == 100.0
    ensures r.carb / 100.0 == raw.carb / Sum(raw)
    ensures r.prot / 100.0 == raw.prot / Sum(raw)
    ensures r.fat / 100.0 == raw.fat / Sum(raw)
  {
    var total := Sum(raw);
    var r := Shares(raw.carb / total * 100.0, raw.prot / total * 100.0, raw.fat / total * 100.0);
    assert Sum(r) == (raw.carb + raw.prot + raw.fat) / total * 100.0;
    assert (raw.carb + raw.prot + raw.fat) / total == 1.0;
    assert r.carb / 100.0 == raw.carb / total;
    assert r.prot / 100.0 == raw.prot / total;
    assert r.fat / 100.0 == raw.fat / total;
    r
  }

  /** Rescaling shares that already sum to 100 leaves them as they are. */
  lemma NormalizeIdempotent(raw: Shares)
    requires Sum(raw) != 0.0
    ensures Normalize(Normalize(raw)) == Normalize(raw)
  {
    var n := Normalize(raw);
    assert n.carb / 100.0 * 100.0 == n.carb;
    assert n.prot / 100.0 * 100.0 == n.prot;
    assert n.fat / 100.0 * 100.0 == n.fat;
  }

  /** The targets in grams `(cho_g, pro_g, fat_g)`. */
  datatype Grams = Grams(carb: int, prot: int, fat: int)

  /** The exact grams of each share of `vet` kilocalories at 4, 4 and 9 kcal per gram. */
  function CarbExact(vet: real, s: Shares): real { vet * (s.carb / 100.0) / 4.0 }
  function ProtExact(vet: real, s: Shares): real { vet * (s.prot / 100.0) / 4.0 }
  function FatExact(vet: real, s: Shares): real { vet * (s.fat / 100.0) / 9.0 }

  /** `round(x)` is within one half of `x`. */
  lemma RoundWithinHalf(x: real)
    ensures Abs(RoundHalfEven(x) as real - x) <= 1.0 / 2.0
  {
  }

  /** The grams rounded half to even: the integer nearest the exact value. */
  function ToGrams(vet: real, s: Shares): (g: Grams)
    ensures Abs(g.carb as real - CarbExact(vet, s)) <= 1.0 / 2.0
    ensures Abs(g.prot as real - ProtExact(vet, s)) <= 1.0 / 2.0
    ensures Abs(g.fat as real - FatExact(vet, s)) <= 1.0 / 2.0
  {
    RoundWithinHalf(CarbExact(vet, s));
    RoundWithinHalf(ProtExact(vet, s));
    RoundWithinHalf(FatExact(vet, s));
    Grams(RoundHalfEven(CarbExact(vet, s)), RoundHalfEven(ProtExact(vet, s)), RoundHalfEven(FatExact(vet, s)))
  }

  /** No integer is closer to the exact grams than the rounded value. */
  lemma ToGramsNearest(vet: real, s: Shares, m: int)
    ensures Abs(ToGrams(vet, s).carb as real - CarbExact(vet, s)) <= Abs(m as real - CarbExact(vet, s))
    ensures Abs(ToGrams(vet, s).prot as real - ProtExact(vet, s)) <= Abs(m as real - ProtExact(vet, s))
    ensures Abs(ToGrams(vet, s).fat as real - FatExact(vet, s)) <= Abs(m as real - FatExact(vet, s))
  {
    RoundIsNearest(CarbExact(vet, s), m);
    RoundIsNearest(ProtExact(vet, s), m);
    RoundIsNearest(FatExact(vet, s), m);
  }

  /** Why `calcular_macros` stops: the failed `assert peso > 0`, or a
      defuzzified total of zero in the normalisation. */
  datatype MacroError = NonPositiveWeight | ZeroTotal

  /** `calcular_macros(objetivo_in, atividade_in, colesterol_in, peso)`, where
      `infer` gives the defuzzified percentages for the clamped inputs. */
  function CalcularMacros(objetivo: int, atividade: int, colesterol: int, peso: real, infer: Inputs -> Shares)
    : (r: Result<Grams, MacroError>)
    ensures peso <= 0.0 <==> r == Err(NonPositiveWeight)
    ensures peso > 0.0 ==> var x := Sanitize(objetivo, atividade, colesterol);
      (r == Err(ZeroTotal) <==> Sum(infer(x)) == 0.0)
    ensures r.Ok? ==> var x := Sanitize(objetivo, atividade, colesterol);
      Sum(infer(x)) != 0.0 && r.value == ToGrams(Vet(x.objetivo, peso), Normalize(infer(x)))
  {
    var x := Sanitize(objetivo, atividade, colesterol);
    if peso <= 0.0 then Err(NonPositiveWeight)
    else
      var raw := infer(x);
      if Sum(raw) == 0.0 then Err(ZeroTotal)
      else Ok(ToGrams(Vet(x.objetivo, peso), Normalize(raw)))
  }

  /** The energy used for the grams is that of the clamped objective: an
      out-of-range objective is treated as the nearest of 0 and 2. */
  lemma MacrosUseClampedObjective(objetivo: int, peso: real)
    ensures objetivo < 0 ==> Vet(Sanitize(objetivo, 0, 0).objetivo, peso) == Vet(0, peso)
    ensures objetivo > 2 ==> Vet(Sanitize(objetivo, 0, 0).objetivo, peso) == Vet(2, peso)
  {
  }

  /** The exact grams of renormalised shares carry exactly `vet` kilocalories. */
  lemma ExactGramsCarryEnergy(vet: real, s: Shares)
    requires Sum(s) == 100.0
    ensures 4.0 * CarbExact(vet, s) + 4.0 * ProtExact(vet, s) + 9.0 * FatExact(vet, s) == vet
  {
    assert 4.0 * CarbExact(vet, s) == vet * (s.carb / 100.0);
    assert 4.0 * ProtExact(vet, s) == vet * (s.prot / 100.0);
    assert 9.0 * FatExact(vet, s) == vet * (s.fat / 100.0);
    assert vet * (s.carb / 100.0) + vet * (s.prot / 100.0) + vet * (s.fat / 100.0) == vet * (Sum(s) / 100.0);
  }

  /** With the percentages renormalised, the grams add back to the energy
      target up to the rounding: `4·cho + 4·pro + 9·fat` is within 8.5 kcal of
      `vet`. */
  lemma GramsMatchEnergy(vet: real, raw: Shares)
    requires Sum(raw) != 0.0
    ensures var g := ToGrams(vet, Normalize(raw));
      Abs(4.0 * g.carb as real + 4.0 * g.prot as real + 9.0 * g.fat as real - vet) <= 17.0 / 2.0
  {
    var s := Normalize(raw);
    var g := ToGrams(vet, s);
    ExactGramsCarryEnergy(vet, s);
    var dc := g.carb as real - CarbExact(vet, s);
    var dp := g.prot as real - ProtExact(vet, s);
    var df := g.fat as real - FatExact(vet, s);
    assert 4.0 * g.carb as real + 4.0 * g.prot as real + 9.0 * g.fat as real - vet == 4.0 * dc + 4.0 * dp + 9.0 * df;
    assert -(1.0 / 2.0) <= dc <= 1.0 / 2.0 && -(1.0 / 2.0) <= dp <= 1.0 / 2.0 && -(1.0 / 2.0) <= df <= 1.0 / 2.0;
  }
}
