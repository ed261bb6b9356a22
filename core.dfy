/** The plan builder of assets/core_engine.py: the diet label and tags
    (`_rotular_dieta`), and the steps of `gerar_plano_para_usuario` that turn
    a user's answers into the optimiser's targets and parameters (macro
    percentages, the table path, the merged parameter dictionary), chained
    with the fuzzy macros, the energy target and the menu optimiser. */
module Core {
  import opened Common
  import opened Text
  import P = Params
  import F = Fitness
  import C = Catalog
  import E = Energy
  import M = Macros
  import Ev = Evolution
  import D = Driver

  // ---------------------------------------------------------------------------
  // _rotular_dieta
  // ---------------------------------------------------------------------------

  const HighCarbTag: string := "alto carboidrato"
  const HighProteinTag: string := "alta proteína"
  const GoodFatTag: string := "maior teor de gorduras boas"

  /** The dictionary lookup `{0: ..., 1: ..., 2: ...}.get(objetivo, "normocalórica")`. */
  function DietType(objetivo: int): (t: string)
    ensures objetivo == 0 ==> t == "hipocalórica"
    ensures objetivo == 2 ==> t == "hipercalórica"
    ensures objetivo != 0 && objetivo != 2 ==> t == "normocalórica"
  {
    if objetivo == 0 then "hipocalórica"
    else if objetivo == 2 then "hipercalórica"
    else "normocalórica"
  }

  /** The tags of a plan whose energy is split `c`/`p`/`g` per cent, in the
      order they are appended. */
  function LabelTags(c: real, p: real, g: real): seq<string> {
    (if c >= 55.0 then [HighCarbTag] else [])
    + (if p >= 25.0 then [HighProteinTag] else [])
    + (if g >= 35.0 then [GoodFatTag] else [])
  }

  /** `_rotular_dieta(objetivo, c_perc, p_perc, g_perc)`. */
  method LabelDiet(objetivo: int, c: real, p: real, g: real) returns (tipo: string, tags: seq<string>)
    ensures tipo == DietType(objetivo)
    ensures tags == LabelTags(c, p, g)
  {
    tipo := DietType(objetivo);
    tags := [];
    if c >= 55.0 {
      tags := tags + [HighCarbTag];
    }
    if p >= 25.0 {
      tags := tags + [HighProteinTag];
    }
    if g >= 35.0 {
      tags := tags + [GoodFatTag];
    }
  }

  /** Position of a tag in the fixed order carbohydrate, protein, fat. */
  function TagRank(t: string): int {
    if t == HighCarbTag then 0 else if t == HighProteinTag then 1 else 2
  }

  /** Each tag is present exactly when its threshold is met, tags never repeat
      and always come in the fixed order, so there are at most three. */
  lemma LabelTagsIff(c: real, p: real, g: real)
    ensures HighCarbTag in LabelTags(c, p, g) <==> c >= 55.0
    ensures HighProteinTag in LabelTags(c, p, g) <==> p >= 25.0
    ensures GoodFatTag in LabelTags(c, p, g) <==> g >= 35.0
    ensures |LabelTags(c, p, g)| <= 3
    ensures forall i, j :: 0 <= i < j < |LabelTags(c, p, g)| ==>
      TagRank(LabelTags(c, p, g)[i]) < TagRank(LabelTags(c, p, g)[j])
  {
    assert HighCarbTag[3] != HighProteinTag[3];
    assert HighCarbTag[0] != GoodFatTag[0];
    assert HighProteinTag[0] != GoodFatTag[0];
  }

  // ---------------------------------------------------------------------------
  // Macro percentages
  // ---------------------------------------------------------------------------

  /** The energy of the gram targets at 4, 4 and 9 kcal per gram. */
  function MacroKcal(g: M.Grams): int {
    4 * g.carb + 4 * g.prot + 9 * g.fat
  }

  /** `max(1, c_kcal + p_kcal + g_kcal)`: never zero. */
  function KcalDenominator(g: M.Grams): (d: int)
    ensures d >= 1
    ensures MacroKcal(g) >= 1 ==> d == MacroKcal(g)
    ensures MacroKcal(g) < 1 ==> d == 1
  {
    Max(1, MacroKcal(g))
  }

  /** `(c_perc, p_perc, g_perc)`. */
  datatype Percentages = Percentages(carb: real, prot: real, gord: real)

  function PercentagesOf(g: M.Grams): Percentages {
    var d := KcalDenominator(g) as real;
    Percentages((4 * g.carb) as real / d * 100.0, (4 * g.prot) as real / d * 100.0, (9 * g.fat) as real / d * 100.0)
  }

  /** Each percentage is its macro's share of the denominator, and when the
      macros carry at least one kilocalorie the three add up to 100. */
  lemma PercentagesShare(g: M.Grams)
    ensures var p := PercentagesOf(g); var d := KcalDenominator(g) as real;
      p.carb * d == 100.0 * (4 * g.carb) as real
      && p.prot * d == 100.0 * (4 * g.prot) as real
      && p.gord * d == 100.0 * (9 * g.fat) as real
    ensures MacroKcal(g) >= 1 ==> PercentagesOf(g).carb + PercentagesOf(g).prot + PercentagesOf(g).gord == 100.0
  {
    var d := KcalDenominator(g) as real;
    var a, b, c := (4 * g.carb) as real, (4 * g.prot) as real, (9 * g.fat) as real;
    assert a / d * 100.0 * d == 100.0 * a;
    assert b / d * 100.0 * d == 100.0 * b;
    assert c / d * 100.0 * d == 100.0 * c;
    if MacroKcal(g) >= 1 {
      assert a + b + c == d;
      assert a / d * 100.0 + b / d * 100.0 + c / d * 100.0 == (a + b + c) / d * 100.0;
    }
  }

  /** Non-negative grams give percentages between 0 and 100. */
  lemma PercentagesBounded(g: M.Grams)
    requires g.carb >= 0 && g.prot >= 0 && g.fat >= 0
    ensures 0.0 <= PercentagesOf(g).carb <= 100.0
    ensures 0.0 <= PercentagesOf(g).prot <= 100.0
    ensures 0.0 <= PercentagesOf(g).gord <= 100.0
  {
    var n := KcalDenominator(g);
    assert 4 * g.carb <= n && 4 * g.prot <= n && 9 * g.fat <= n;
    ShareBounded(4 * g.carb, n);
    ShareBounded(4 * g.prot, n);
    ShareBounded(9 * g.fat, n);
  }

  /** `a / n * 100` lies in [0, 100] when `0 <= a <= n`. */
  lemma ShareBounded(a: int, n: int)
    requires 0 <= a <= n && n >= 1
    ensures 0.0 <= a as real / n as real * 100.0 <= 100.0
  {
    assert a as real / n as real <= 1.0;
  }

  // ---------------------------------------------------------------------------
  // Table path resolution (POSIX paths)
  // ---------------------------------------------------------------------------

  const DefaultTable: string := "data/taco_min.csv"

  /** `os.path.isabs`. */
  predicate IsAbs(p: string) {
    |p| > 0 && p[0] == '/'
  }

  /** One leading `assets/` or `assets\` is removed, and no more. */
  function StripAssetsPrefix(p: string): (r: string)
    ensures StartsWith(p, "assets/") ==> p == "assets/" + r
    ensures StartsWith(p, "assets\\") ==> p == "assets\\" + r
    ensures !StartsWith(p, "assets/") && !StartsWith(p, "assets\\") ==> r == p
  {
    if StartsWith(p, "assets/") then p[7..]
    else if StartsWith(p, "assets\\") then p[7..]
    else p
  }

  /** `os.path.join(a, b)`: an absolute `b` replaces `a`; otherwise a `/` is
      put between them unless `a` is empty or already ends with one. */
  function JoinPath(a: string, b: string): string {
    if IsAbs(b) then b
    else if a == [] || a[|a| - 1] == '/' then a + b
    else a + "/" + b
  }

  /** The path of the table: `dados.get("tabela_csv", "data/taco_min.csv")`,
      used as it is when absolute and otherwise placed under the `assets`
      directory `base` with one `assets/` prefix removed. */
  function ResolveTable(base: string, raw: Option<string>): string {
    var r := P.Get(raw, DefaultTable);
    if IsAbs(r) then r else JoinPath(base, StripAssetsPrefix(r))
  }

  /** An absolute path is kept; a relative one ends up under an absolute base,
      ending with what remained after the prefix was removed. */
  lemma ResolveTableLaws(base: string, raw: string)
    requires IsAbs(base)
    ensures IsAbs(raw) ==> ResolveTable(base, Some(raw)) == raw
    ensures IsAbs(ResolveTable(base, Some(raw)))
    ensures !IsAbs(raw) && !IsAbs(StripAssetsPrefix(raw)) ==>
      var rest := StripAssetsPrefix(raw);
      var r := ResolveTable(base, Some(raw));
      |r| > |rest| && r[|r| - |rest|..] == rest && r[..|r| - |rest|][0] == '/'
  {
    var rest := StripAssetsPrefix(raw);
    var r := ResolveTable(base, Some(raw));
    if !IsAbs(raw) && !IsAbs(rest) {
      if base[|base| - 1] == '/' {
        assert r == base + rest;
      } else {
        assert r == base + "/" + rest;
      }
    }
  }

  /** A path not starting with `a` has no prefix to remove. */
  lemma NoAssetsPrefix(p: string)
    requires |p| > 0 && p[0] != 'a'
    ensures StripAssetsPrefix(p) == p
  {
    if |p| >= 7 {
      assert p[..7][0] == p[0];
    }
  }

  /** The chatbot's `assets/data/taco_min.csv` and a missing entry name the
      same file. */
  lemma ChatTableIsDefault(base: string)
    ensures ResolveTable(base, Some("assets/data/taco_min.csv")) == ResolveTable(base, None)
  {
    var raw := "assets/data/taco_min.csv";
    assert raw == "assets/" + DefaultTable;
    assert StartsWith(raw, "assets/") by { assert raw[..7] == "assets/"; }
    NoAssetsPrefix(DefaultTable);
  }

  /** Only one `assets/` is removed. */
  lemma OnePrefixRemoved()
    ensures StripAssetsPrefix("assets/assets/x.csv") == "assets/x.csv"
  {
    var raw := "assets/assets/x.csv";
    assert raw == "assets/" + "assets/x.csv";
    assert StartsWith(raw, "assets/") by { assert raw[..7] == "assets/"; }
  }

  /** The default table under an `assets` directory. */
  lemma DefaultTableUnderBase()
    ensures ResolveTable("/srv/app/assets", None) == "/srv/app/assets/data/taco_min.csv"
  {
    NoAssetsPrefix(DefaultTable);
  }

  // ---------------------------------------------------------------------------
  // Targets and parameters
  // ---------------------------------------------------------------------------

  /** The user's answers `dados`; a `None` entry is a key that is absent. */
  datatype Dados = Dados(
    objetivo: int, atividade: int, colesterol: int, peso: real,
    nRefeicoes: Option<int>,
    restricoes: Option<map<string, seq<string>>>,
    orcamentoMax: Option<real>,
    tabelaCsv: Option<string>,
    ag: Option<P.Params>)

  /** `{"kcal": vet, "carb_g": ..., "prot_g": ..., "fat_g": ...}`. */
  function TargetsOf(vet: real, g: M.Grams): F.Targets {
    F.Targets(vet, g.carb as real, g.prot as real, g.fat as real)
  }

  /** The entries written before `**dados.get("ag", {})`. */
  function BaseParams(d: Dados, path: string): P.Params {
    P.NoParams.(
      nRefeicoes := Some(P.Get(d.nRefeicoes, 5)),
      restricoes := Some(P.Get(d.restricoes, map[])),
      orcamentoMax := Some(P.Get(d.orcamentoMax, 9999.0)),
      tabelaCsv := Some(path))
  }

  /** The optimiser's `params`: the base entries, then every key of `ag`. */
  function PlanParams(d: Dados, path: string): P.Params {
    P.Merge(BaseParams(d, path), P.Get(d.ag, P.NoParams))
  }

  /** A key given in `ag` wins over the base entry; a key it leaves out keeps
      the base value (with the defaults 5 meals, no restrictions, a budget of
      9999 and the resolved path); a key with no base entry is `ag`'s. */
  lemma PlanParamsOverride(d: Dados, path: string)
    ensures var p := PlanParams(d, path); var ag := P.Get(d.ag, P.NoParams);
      p.nRefeicoes == (if ag.nRefeicoes.Some? then ag.nRefeicoes else Some(P.Get(d.nRefeicoes, 5)))
      && p.restricoes == (if ag.restricoes.Some? then ag.restricoes else Some(P.Get(d.restricoes, map[])))
      && p.orcamentoMax == (if ag.orcamentoMax.Some? then ag.orcamentoMax else Some(P.Get(d.orcamentoMax, 9999.0)))
      && p.tabelaCsv == (if ag.tabelaCsv.Some? then ag.tabelaCsv else Some(path))
      && p.pop == ag.pop && p.ger == ag.ger && p.elit == ag.elit && p.seed == ag.seed && p.pesos == ag.pesos
      && p.densThr == ag.densThr && p.lowKcalBias == ag.lowKcalBias
      && p.mealCarbMin == ag.mealCarbMin && p.mealCarbWeight == ag.mealCarbWeight
      && p.mealProtMin == ag.mealProtMin && p.mealProtWeight == ag.mealProtWeight
  {
  }

  // ---------------------------------------------------------------------------
  // gerar_plano_para_usuario
  // ---------------------------------------------------------------------------

  /** What the plan builder relies on but does not compute: the `assets`
      directory, the fuzzy inference, the table file contents by path and the
      random stream for each seed. */
  datatype Env = Env(base: string, infer: M.Inputs -> M.Shares, table: string -> seq<C.Row>, streams: int -> (nat -> nat))

  /** Why no plan came out: the macro step or the optimiser stopped. */
  datatype PlanError = MacroFailure(why: M.MacroError) | MenuFailure(failure: Ev.Failure)

  /** The returned dictionary without the summary string: the diet type and
      tags, `alvos` (`vet`, the targets and the percentages) and the
      optimiser's menu, metrics and history. */
  datatype Plan = Plan(
    tipo: string, tags: seq<string>, vet: real, targets: F.Targets, perc: Percentages,
    cardapio: seq<seq<D.OutItem>>, metricas: F.Eval, historico: seq<Ev.HistEntry>)

  /** What `gerar_plano_para_usuario(dados)` produces, step by step. */
  ghost predicate PlanOutcome(env: Env, d: Dados, r: Result<Plan, PlanError>, tr: D.Trace) {
    match M.CalcularMacros(d.objetivo, d.atividade, d.colesterol, d.peso, env.infer)
    case Err(e) => r == Err(MacroFailure(e))
    case Ok(g) =>
      var vet := E.Vet(d.objetivo, d.peso);
      var t := TargetsOf(vet, g);
      var p := PlanParams(d, ResolveTable(env.base, d.tabelaCsv));
      var pc := PercentagesOf(g);
      (r.Err? <==> D.ExpectedFailure(p, env.table).Some?)
      && (r.Err? ==> r.error == MenuFailure(D.ExpectedFailure(p, env.table).value))
      && (r.Ok? ==>
        r.value.tipo == DietType(d.objetivo) && r.value.tags == LabelTags(pc.carb, pc.prot, pc.gord)
        && r.value.vet == vet && r.value.targets == t && r.value.perc == pc
        && p.tabelaCsv.Some?
        && D.Outcome(C.Load(env.table(p.tabelaCsv.value)), t, F.ConfigOf(p), D.SettingsOf(p),
                     env.streams(P.Get(p.seed, 42)), 0,
                     D.Output(r.value.metricas, r.value.cardapio, r.value.historico), tr))
  }

  /** `gerar_plano_para_usuario(dados)`. */
  method PlanForUser(env: Env, d: Dados) returns (r: Result<Plan, PlanError>, ghost tr: D.Trace)
    ensures PlanOutcome(env, d, r, tr)
  {
    tr := D.NoTrace;
    var macros := M.CalcularMacros(d.objetivo, d.atividade, d.colesterol, d.peso, env.infer);
    if macros.Err? {
      return Err(MacroFailure(macros.error)), tr;
    }
    var g := macros.value;
    var vet := E.Vet(d.objetivo, d.peso);
    var pc := PercentagesOf(g);
    var tipo, tags := LabelDiet(d.objetivo, pc.carb, pc.prot, pc.gord);
    var path := ResolveTable(env.base, d.tabelaCsv);
    var t := TargetsOf(vet, g);
    var p := PlanParams(d, path);
    var sol;
    sol, tr := D.GenerateMenu(t, p, env.table, env.streams);
    if sol.Err? {
      return Err(MenuFailure(sol.error)), tr;
    }
    r := Ok(Plan(tipo, tags, vet, t, pc, sol.value.refeicoes, sol.value.fitness, sol.value.historico));
  }

  /** The energy target takes the objective as given while the macro step
      clamps it: an objective of 3 gets the bulking grams but a zero energy
      target. */
  lemma EnergyUsesRawObjective(atividade: int, colesterol: int, peso: real, infer: M.Inputs -> M.Shares)
    ensures M.CalcularMacros(3, atividade, colesterol, peso, infer) == M.CalcularMacros(2, atividade, colesterol, peso, infer)
    ensures E.Vet(3, peso) == 0.0 && (peso > 0.0 ==> E.Vet(2, peso) > 0.0)
  {
  }
}
