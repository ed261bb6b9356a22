/** The fitness function `_avalia_cardapio`
    (assets/genetic_module/genetic_module.py:227-372).  A day's menu is scored
    by a weighted, asymmetric distance of its totals from the targets plus
    penalties for banned foods, calorie-dense items, meals short of
    carbohydrate or protein, repeated foods and excess protein.  Every gene's
    portion is clamped by `SafePortion` before its nutrients are counted.
    Arithmetic is exact over the reals. */
module Fitness {
  import opened Common
  import opened Foods
  import opened Menu
  import opened Params

  datatype Targets = Targets(kcal: real, carb: real, prot: real, fat: real)

  /** The evaluation settings `_avalia_cardapio` reads from `params`, with the
      source's defaults; a budget of `None` is `float("inf")`. */
  datatype Config = Config(
    mealCarbMin: real,
    mealCarbWeight: real,
    mealProtMin: real,
    mealProtWeight: real,
    densThr: real,
    banned: seq<string>,
    weights: Weights,
    budget: Option<real>)

  function ConfigOf(p: Params): (c: Config)
    ensures p.mealCarbMin.None? ==> c.mealCarbMin == 45.0
    ensures p.mealCarbWeight.None? ==> c.mealCarbWeight == 14.0
    ensures p.mealProtMin.None? ==> c.mealProtMin == 15.0
    ensures p.mealProtWeight.None? ==> c.mealProtWeight == 10.0
    ensures p.densThr.None? ==> c.densThr == 550.0
    ensures p.restricoes.None? ==> c.banned == []
    ensures p.pesos.None? ==> c.weights == Weights(4.0, 3.2, 1.8, 1.2, 1.0)
    ensures c.budget == p.orcamentoMax
  {
    Config(
      Get(p.mealCarbMin, 45.0),
      Get(p.mealCarbWeight, 14.0),
      Get(p.mealProtMin, 15.0),
      Get(p.mealProtWeight, 10.0),
      Get(p.densThr, 550.0),
      Banned(Get(p.restricoes, map[])),
      Get(p.pesos, DefaultWeights),
      p.orcamentoMax)
  }

  /** The tuple `(J, kcal, carb, prot, gord, custo)`. */
  datatype Eval = Eval(j: real, kcal: real, carb: real, prot: real, fat: real, cost: real)

  // ---------------------------------------------------------------------------
  // Per-gene quantities
  // ---------------------------------------------------------------------------

  function Item(itens: seq<FoodItem>, g: Gene): FoodItem
    requires 0 <= g.idx < |itens|
  {
    itens[g.idx]
  }

  /** The clamped portion the evaluation counts. */
  function GenePortion(itens: seq<FoodItem>, g: Gene): int
    requires 0 <= g.idx < |itens|
  {
    SafePortion(Item(itens, g), g.portion)
  }

  function GeneNutr(itens: seq<FoodItem>, g: Gene): Nutrients
    requires 0 <= g.idx < |itens|
  {
    NutrPerPortion(Item(itens, g), GenePortion(itens, g) as real)
  }

  /** The calorie-density penalty of one gene. */
  function GeneDensity(itens: seq<FoodItem>, thr: real, g: Gene): real
    requires 0 <= g.idx < |itens|
  {
    var it := Item(itens, g);
    if it.kcal > thr then (it.kcal - thr) * (GenePortion(itens, g) as real / 100.0) * 0.2 else 0.0
  }

  /** 1 when the gene's food violates the restrictions, else 0. */
  function GeneViolation(itens: seq<FoodItem>, banned: seq<string>, g: Gene): nat
    requires 0 <= g.idx < |itens|
  {
    if Violates(Item(itens, g), banned) then 1 else 0
  }

  // ---------------------------------------------------------------------------
  // Sums over a meal and over the day
  // ---------------------------------------------------------------------------

  function MealNutr(itens: seq<FoodItem>, meal: seq<Gene>): Nutrients
    requires ValidMeal(meal, |itens|)
  {
    if meal == [] then Zero
    else MealNutr(itens, meal[..|meal| - 1]).Plus(GeneNutr(itens, meal[|meal| - 1]))
  }

  function MenuNutr(itens: seq<FoodItem>, menu: seq<seq<Gene>>): Nutrients
    requires ValidMenu(menu, |itens|)
  {
    if menu == [] then Zero
    else MenuNutr(itens, menu[..|menu| - 1]).Plus(MealNutr(itens, menu[|menu| - 1]))
  }

  function MealDensity(itens: seq<FoodItem>, thr: real, meal: seq<Gene>): real
    requires ValidMeal(meal, |itens|)
  {
    if meal == [] then 0.0
    else MealDensity(itens, thr, meal[..|meal| - 1]) + GeneDensity(itens, thr, meal[|meal| - 1])
  }

  function MenuDensity(itens: seq<FoodItem>, thr: real, menu: seq<seq<Gene>>): real
    requires ValidMenu(menu, |itens|)
  {
    if menu == [] then 0.0
    else MenuDensity(itens, thr, menu[..|menu| - 1]) + MealDensity(itens, thr, menu[|menu| - 1])
  }

  /** How many genes of a meal name a food that violates the restrictions. */
  function MealViolations(itens: seq<FoodItem>, banned: seq<string>, meal: seq<Gene>): nat
    requires ValidMeal(meal, |itens|)
  {
    if meal == [] then 0
    else MealViolations(itens, banned, meal[..|meal| - 1]) + GeneViolation(itens, banned, meal[|meal| - 1])
  }

  function MenuViolations(itens: seq<FoodItem>, banned: seq<string>, menu: seq<seq<Gene>>): nat
    requires ValidMenu(menu, |itens|)
  {
    if menu == [] then 0
    else MenuViolations(itens, banned, menu[..|menu| - 1]) + MealViolations(itens, banned, menu[|menu| - 1])
  }

  /** The penalty of one meal whose totals are `n`: each gram of carbohydrate
      and of protein short of the per-meal minimum costs its weight. */
  function MealPenalty(cfg: Config, carb: real, prot: real): real {
    (if carb < cfg.mealCarbMin then (cfg.mealCarbMin - carb) * cfg.mealCarbWeight else 0.0)
    + (if prot < cfg.mealProtMin then (cfg.mealProtMin - prot) * cfg.mealProtWeight else 0.0)
  }

  function MenuMealPenalty(itens: seq<FoodItem>, cfg: Config, menu: seq<seq<Gene>>): real
    requires ValidMenu(menu, |itens|)
  {
    if menu == [] then 0.0
    else MenuMealPenalty(itens, cfg, menu[..|menu| - 1]) + MealPenalty(cfg, MealNutr(itens, menu[|menu| - 1]).carb, MealNutr(itens, menu[|menu| - 1]).prot)
  }

  // ---------------------------------------------------------------------------
  // Daily use of each food (`uso_por_id`, a dict in insertion order)
  // ---------------------------------------------------------------------------

  type Usage = seq<(string, real)>

  /** `uso[id] = uso.get(id, 0.0) + g`: an existing key keeps its place. */
  function AddUse(u: Usage, id: string, g: real): Usage {
    if u == [] then [(id, g)]
    else if u[0].0 == id then [(id, u[0].1 + g)] + u[1..]
    else [u[0]] + AddUse(u[1..], id, g)
  }

  /** `uso.get(id, 0.0)`. */
  function Lookup(u: Usage, id: string): real {
    if u == [] then 0.0 else if u[0].0 == id then u[0].1 else Lookup(u[1..], id)
  }

  function Keys(u: Usage): (ks: seq<string>)
    ensures |ks| == |u|
    ensures forall i :: 0 <= i < |u| ==> ks[i] == u[i].0
  {
    if u == [] then [] else [u[0].0] + Keys(u[1..])
  }

  function MealUsage(itens: seq<FoodItem>, u: Usage, meal: seq<Gene>): Usage
    requires ValidMeal(meal, |itens|)
  {
    if meal == [] then u
    else
      var g := meal[|meal| - 1];
      AddUse(MealUsage(itens, u, meal[..|meal| - 1]), Item(itens, g).id, GenePortion(itens, g) as real)
  }

  function MenuUsage(itens: seq<FoodItem>, menu: seq<seq<Gene>>): Usage
    requires ValidMenu(menu, |itens|)
  {
    if menu == [] then [] else MealUsage(itens, MenuUsage(itens, menu[..|menu| - 1]), menu[|menu| - 1])
  }

  /** Every gram of one food beyond 350 in the day costs 2. */
  function VarietyPenalty(u: Usage): real {
    if u == [] then 0.0
    else
      var g := u[|u| - 1].1;
      VarietyPenalty(u[..|u| - 1]) + (if g > 350.0 then (g - 350.0) * 2.0 else 0.0)
  }

  // ---------------------------------------------------------------------------
  // Error terms
  // ---------------------------------------------------------------------------

  /** Energy: a kcal below the target costs 2.2, above it 1.0. */
  function KcalPen(x: real, t: real): real {
    if x < t then 2.2 * (t - x) else 1.0 * (x - t)
  }

  /** Carbohydrate (4 kcal/g): a deficit costs twice an excess. */
  function CarbPen(x: real, t: real): real {
    if x < t then 2.0 * (t - x) * 4.0 else 1.0 * (x - t) * 4.0
  }

  /** Protein (4 kcal/g): an excess costs 2.5 times a deficit. */
  function ProtPen(x: real, t: real): real {
    if x > t then 2.5 * (x - t) * 4.0 else 1.0 * (t - x) * 4.0
  }

  /** Fat (9 kcal/g): a deficit costs 1.2 times an excess. */
  function FatPen(x: real, t: real): real {
    if x < t then 1.2 * (t - x) * 9.0 else 1.0 * (x - t) * 9.0
  }

  /** Protein beyond 140 % of the target costs 40 more per gram. */
  function ProtExtra(x: real, t: real): real {
    var lim := t * 1.4;
    if x > lim then (x - lim) * 40.0 else 0.0
  }

  /** `max(0.0, custo - orcamento_max)`, with an absent budget infinite. */
  function BudgetExcess(cost: real, budget: Option<real>): real {
    match budget
    case None => 0.0
    case Some(b) => MaxR(0.0, cost - b)
  }

  /** The summands of J, in the order the source adds them. */
  datatype Terms = Terms(err: real, budget: real, restr: real, dens: real, meal: real, variety: real, protExtra: real)

  /** The summands for a day with totals `n` and the given penalty sums. */
  function TermsOf(t: Targets, cfg: Config, n: Nutrients, restr: real, dens: real, meal: real, variety: real): Terms {
    var w := cfg.weights;
    Terms(
      w.alpha * KcalPen(n.kcal, t.kcal) + w.beta * CarbPen(n.carb, t.carb)
        + w.gamma * ProtPen(n.prot, t.prot) + w.delta * FatPen(n.fat, t.fat),
      w.eps * BudgetExcess(n.cost, cfg.budget),
      restr, dens, meal, variety,
      ProtExtra(n.prot, t.prot))
  }

  function Breakdown(itens: seq<FoodItem>, t: Targets, cfg: Config, menu: seq<seq<Gene>>): Terms
    requires ValidMenu(menu, |itens|)
  {
    TermsOf(t, cfg, MenuNutr(itens, menu),
      500.0 * MenuViolations(itens, cfg.banned, menu) as real,
      MenuDensity(itens, cfg.densThr, menu),
      MenuMealPenalty(itens, cfg, menu),
      VarietyPenalty(MenuUsage(itens, menu)))
  }

  function Total(ts: Terms): real {
    ts.err + ts.budget + ts.restr + ts.dens + ts.meal + ts.variety + ts.protExtra
  }

  /** The score of a menu and its clamped totals. */
  function Evaluate(itens: seq<FoodItem>, t: Targets, cfg: Config, menu: seq<seq<Gene>>): Eval
    requires ValidMenu(menu, |itens|)
  {
    var n := MenuNutr(itens, menu);
    Eval(Total(Breakdown(itens, t, cfg, menu)), n.kcal, n.carb, n.prot, n.fat, n.cost)
  }

  // ---------------------------------------------------------------------------
  // The evaluation loop
  // ---------------------------------------------------------------------------

  /** The running values of the gene loop: the day's totals, the meal's
      carbohydrate and protein, the restriction and density penalties, and the
      usage dictionary. */
  datatype Acc = Acc(tot: Nutrients, carb: real, prot: real, restr: real, dens: real, uso: Usage)

  /** The body of the inner loop, on one gene. */
  function GeneStep(itens: seq<FoodItem>, cfg: Config, a: Acc, g: Gene): Acc
    requires 0 <= g.idx < |itens|
  {
    var nu := GeneNutr(itens, g);
    Acc(a.tot.Plus(nu), a.carb + nu.carb, a.prot + nu.prot,
        a.restr + 500.0 * GeneViolation(itens, cfg.banned, g) as real,
        a.dens + GeneDensity(itens, cfg.densThr, g),
        AddUse(a.uso, Item(itens, g).id, GenePortion(itens, g) as real))
  }

  function MealFold(itens: seq<FoodItem>, cfg: Config, a: Acc, meal: seq<Gene>): Acc
    requires ValidMeal(meal, |itens|)
  {
    if meal == [] then a else GeneStep(itens, cfg, MealFold(itens, cfg, a, meal[..|meal| - 1]), meal[|meal| - 1])
  }

  /** The running values of the meal loop. */
  datatype DayAcc = DayAcc(tot: Nutrients, restr: real, dens: real, uso: Usage, mealPen: real)

  /** The body of the outer loop, on one meal: the gene loop from zero meal
      totals, then the two per-meal minimums. */
  function MealStep(itens: seq<FoodItem>, cfg: Config, d: DayAcc, meal: seq<Gene>): DayAcc
    requires ValidMeal(meal, |itens|)
  {
    var a := MealFold(itens, cfg, Acc(d.tot, 0.0, 0.0, d.restr, d.dens, d.uso), meal);
    DayAcc(a.tot, a.restr, a.dens, a.uso, d.mealPen + MealPenalty(cfg, a.carb, a.prot))
  }

  function DayFold(itens: seq<FoodItem>, cfg: Config, menu: seq<seq<Gene>>): DayAcc
    requires ValidMenu(menu, |itens|)
  {
    if menu == [] then DayAcc(Zero, 0.0, 0.0, [], 0.0)
    else MealStep(itens, cfg, DayFold(itens, cfg, menu[..|menu| - 1]), menu[|menu| - 1])
  }

  /** The gene loop computes, for a meal, its clamped totals, 500 per violating
      gene, its density penalty and the usage of its genes. */
  lemma {:induction false} MealFoldParts(itens: seq<FoodItem>, cfg: Config, a: Acc, meal: seq<Gene>)
    requires ValidMeal(meal, |itens|)
    ensures MealFold(itens, cfg, a, meal) ==
      Acc(a.tot.Plus(MealNutr(itens, meal)),
          a.carb + MealNutr(itens, meal).carb, a.prot + MealNutr(itens, meal).prot,
          a.restr + 500.0 * MealViolations(itens, cfg.banned, meal) as real,
          a.dens + MealDensity(itens, cfg.densThr, meal),
          MealUsage(itens, a.uso, meal))
  {
    if meal != [] {
      var init := meal[..|meal| - 1];
      MealFoldParts(itens, cfg, a, init);
      PlusAssoc(a.tot, MealNutr(itens, init), GeneNutr(itens, meal[|meal| - 1]));
    }
  }

  /** The meal loop computes the day's clamped totals, 500 per violating gene,
      the density penalty, the per-meal penalties and the usage dictionary. */
  lemma {:induction false} DayFoldParts(itens: seq<FoodItem>, cfg: Config, menu: seq<seq<Gene>>)
    requires ValidMenu(menu, |itens|)
    ensures DayFold(itens, cfg, menu) ==
      DayAcc(MenuNutr(itens, menu), 500.0 * MenuViolations(itens, cfg.banned, menu) as real,
             MenuDensity(itens, cfg.densThr, menu), MenuUsage(itens, menu), MenuMealPenalty(itens, cfg, menu))
  {
    if menu != [] {
      var init := menu[..|menu| - 1];
      var last := menu[|menu| - 1];
      assert ValidMenu(init, |itens|);
      DayFoldParts(itens, cfg, init);
      var d := DayFold(itens, cfg, init);
      MealFoldParts(itens, cfg, Acc(d.tot, 0.0, 0.0, d.restr, d.dens, d.uso), last);
      var n := MealNutr(itens, last);
      var v := MealViolations(itens, cfg.banned, last);
      assert 500.0 * MenuViolations(itens, cfg.banned, init) as real + 500.0 * v as real
        == 500.0 * MenuViolations(itens, cfg.banned, menu) as real;
      var r := DayFold(itens, cfg, menu);
      assert r == MealStep(itens, cfg, d, last);
      assert r.tot == MenuNutr(itens, menu);
      assert r.restr == 500.0 * MenuViolations(itens, cfg.banned, menu) as real;
      assert r.dens == MenuDensity(itens, cfg.densThr, menu);
      assert r.uso == MenuUsage(itens, menu);
      assert r.mealPen == MenuMealPenalty(itens, cfg, menu);
    }
  }

  lemma PlusAssoc(a: Nutrients, b: Nutrients, c: Nutrients)
    ensures a.Plus(b).Plus(c) == a.Plus(b.Plus(c))
  {
  }

  /** The body of the inner loop of `_avalia_cardapio`: clamp the portion, add
      its nutrients to the day and to the meal, record its grams under the
      item's id, and add the density and restriction penalties. */
  method GeneUpdate(itens: seq<FoodItem>, cfg: Config, a: Acc, g: Gene) returns (r: Acc)
    requires 0 <= g.idx < |itens|
    ensures r == GeneStep(itens, cfg, a, g)
  {
    var tot, carbsRef, protRef, restr, dens, uso := a.tot, a.carb, a.prot, a.restr, a.dens, a.uso;
    var item := Item(itens, g);
    var porcao := GenePortion(itens, g);
    var nu := GeneNutr(itens, g);
    tot := tot.Plus(nu);
    carbsRef := carbsRef + nu.carb;
    protRef := protRef + nu.prot;
    uso := AddUse(uso, item.id, porcao as real);
    dens := dens + GeneDensity(itens, cfg.densThr, g);
    restr := restr + 500.0 * GeneViolation(itens, cfg.banned, g) as real;
    r := Acc(tot, carbsRef, protRef, restr, dens, uso);
  }

  /** The inner loop of `_avalia_cardapio` over the genes of one meal. */
  method MealPass(itens: seq<FoodItem>, cfg: Config, meal: seq<Gene>, a0: Acc) returns (a: Acc)
    requires ValidMeal(meal, |itens|)
    ensures a == MealFold(itens, cfg, a0, meal)
  {
    a := a0;
    var j := 0;
    while j < |meal|
      invariant 0 <= j <= |meal|
      invariant a == MealFold(itens, cfg, a0, meal[..j])
    {
      assert meal[..j + 1][..j] == meal[..j];
      a := GeneUpdate(itens, cfg, a, meal[j]);
      j := j + 1;
    }
    assert meal[..|meal|] == meal;
  }

  /** The loop over the usage dictionary. */
  method VarietyPass(uso: Usage) returns (variety: real)
    ensures variety == VarietyPenalty(uso)
  {
    variety := 0.0;
    var k := 0;
    while k < |uso|
      invariant 0 <= k <= |uso|
      invariant variety == VarietyPenalty(uso[..k])
    {
      assert uso[..k + 1][..k] == uso[..k];
      var gramas := uso[k].1;
      if gramas > 350.0 {
        variety := variety + (gramas - 350.0) * 2.0;
      }
      k := k + 1;
    }
    assert uso[..|uso|] == uso;
  }

  /** The per-meal minimums: each gram of carbohydrate and of protein the meal
      lacks costs its weight. */
  method MealMinimums(cfg: Config, carbsRef: real, protRef: real, pen0: real) returns (pen: real)
    ensures pen == pen0 + MealPenalty(cfg, carbsRef, protRef)
  {
    pen := pen0;
    if carbsRef < cfg.mealCarbMin {
      pen := pen + (cfg.mealCarbMin - carbsRef) * cfg.mealCarbWeight;
    }
    if protRef < cfg.mealProtMin {
      pen := pen + (cfg.mealProtMin - protRef) * cfg.mealProtWeight;
    }
  }

  /** One pass of the outer loop of `_avalia_cardapio`: the gene loop from
      zero meal totals, then the carbohydrate and protein minimums. */
  method MealUpdate(itens: seq<FoodItem>, cfg: Config, d: DayAcc, meal: seq<Gene>) returns (r: DayAcc)
    requires ValidMeal(meal, |itens|)
    ensures r == MealStep(itens, cfg, d, meal)
  {
    var a := MealPass(itens, cfg, meal, Acc(d.tot, 0.0, 0.0, d.restr, d.dens, d.uso));
    var mealPen := MealMinimums(cfg, a.carb, a.prot, d.mealPen);
    r := DayAcc(a.tot, a.restr, a.dens, a.uso, mealPen);
  }

  /** The closing lines of `_avalia_cardapio`: the four weighted errors, the
      budget excess and the sum that is J. */
  method Score(t: Targets, cfg: Config, tot: Nutrients, restr: real, dens: real, mealPen: real, variety: real)
    returns (e: Eval)
    ensures e == Eval(Total(TermsOf(t, cfg, tot, restr, dens, mealPen, variety)), tot.kcal, tot.carb, tot.prot, tot.fat, tot.cost)
  {
    var w := cfg.weights;
    var err := w.alpha * KcalPen(tot.kcal, t.kcal) + w.beta * CarbPen(tot.carb, t.carb)
      + w.gamma * ProtPen(tot.prot, t.prot) + w.delta * FatPen(tot.fat, t.fat);
    var j := err + w.eps * BudgetExcess(tot.cost, cfg.budget) + restr + dens + mealPen + variety
      + ProtExtra(tot.prot, t.prot);
    e := Eval(j, tot.kcal, tot.carb, tot.prot, tot.fat, tot.cost);
  }

  /** `_avalia_cardapio`: one pass over the meals and their genes, then a pass
      over the usage dictionary, then the error terms.  The result is the
      score `Evaluate` defines from the clamped totals and the penalties. */
  method EvaluateMenu(itens: seq<FoodItem>, t: Targets, cfg: Config, menu: seq<seq<Gene>>) returns (e: Eval)
    requires ValidMenu(menu, |itens|)
    ensures e == Evaluate(itens, t, cfg, menu)
  {
    var d := DayAcc(Zero, 0.0, 0.0, [], 0.0);
    var m := 0;
    while m < |menu|
      invariant 0 <= m <= |menu|
      invariant ValidMenu(menu[..m], |itens|)
      invariant d == DayFold(itens, cfg, menu[..m])
    {
      assert menu[..m + 1][..m] == menu[..m];
      d := MealUpdate(itens, cfg, d, menu[m]);
      m := m + 1;
    }
    assert menu[..|menu|] == menu;
    DayFoldParts(itens, cfg, menu);
    var variety := VarietyPass(d.uso);
    e := Score(t, cfg, d.tot, d.restr, d.dens, d.mealPen, variety);
  }
}
