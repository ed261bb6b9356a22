/** What the score of `_avalia_cardapio` means
    (assets/genetic_module/genetic_module.py:253-370): the shape of each error
    term, what each penalty counts, the usage dictionary as a per-food sum of
    clamped grams, and J >= 0 under non-negative weights. */
module FitnessLaws {
  import opened Common
  import opened Foods
  import opened Menu
  import opened Params
  import opened Fitness
  import Random

  // ---------------------------------------------------------------------------
  // Error terms
  // ---------------------------------------------------------------------------

  /** Energy: each kcal below the target costs 2.2, each above costs 1. */
  lemma KcalPenAsymmetric(t: real, d: real)
    requires d > 0.0
    ensures KcalPen(t - d, t) == 2.2 * d
    ensures KcalPen(t + d, t) == d
    ensures KcalPen(t, t) == 0.0
  {
  }

  /** Carbohydrate: a deficit costs 8 per gram, an excess 4. */
  lemma CarbPenAsymmetric(t: real, d: real)
    requires d > 0.0
    ensures CarbPen(t - d, t) == 8.0 * d
    ensures CarbPen(t + d, t) == 4.0 * d
    ensures CarbPen(t, t) == 0.0
  {
  }

  /** Protein: an excess costs 10 per gram, a deficit 4. */
  lemma ProtPenAsymmetric(t: real, d: real)
    requires d > 0.0
    ensures ProtPen(t + d, t) == 10.0 * d
    ensures ProtPen(t - d, t) == 4.0 * d
    ensures ProtPen(t, t) == 0.0
  {
  }

  /** Fat: a deficit costs 10.8 per gram, an excess 9. */
  lemma FatPenAsymmetric(t: real, d: real)
    requires d > 0.0
    ensures FatPen(t - d, t) == 10.8 * d
    ensures FatPen(t + d, t) == 9.0 * d
    ensures FatPen(t, t) == 0.0
  {
  }

  /** The extra protein penalty is charged exactly above 140 % of the target,
      at 40 per gram of the part beyond it. */
  lemma ProtExtraMeaning(x: real, t: real)
    ensures ProtExtra(x, t) >= 0.0
    ensures ProtExtra(x, t) > 0.0 <==> x > 1.4 * t
    ensures x > 1.4 * t ==> ProtExtra(x, t) == 40.0 * (x - 1.4 * t)
  {
  }

  /** The budget term is the amount spent beyond the budget, and nothing when
      there is no budget. */
  lemma BudgetExcessMeaning(cost: real, budget: Option<real>)
    ensures BudgetExcess(cost, budget) >= 0.0
    ensures budget.None? ==> BudgetExcess(cost, budget) == 0.0
    ensures budget.Some? && cost > budget.value ==> BudgetExcess(cost, budget) == cost - budget.value
    ensures budget.Some? && cost <= budget.value ==> BudgetExcess(cost, budget) == 0.0
  {
  }

  lemma ErrorTermsNonNegative(x: real, t: real)
    ensures KcalPen(x, t) >= 0.0 && CarbPen(x, t) >= 0.0 && ProtPen(x, t) >= 0.0 && FatPen(x, t) >= 0.0
  {
  }

  // ---------------------------------------------------------------------------
  // Per-meal minimums
  // ---------------------------------------------------------------------------

  /** A meal that meets both minimums costs nothing; one short in only one
      macro pays the shortfall times that macro's weight. */
  lemma MealPenaltyMeaning(cfg: Config, carb: real, prot: real)
    ensures carb >= cfg.mealCarbMin && prot >= cfg.mealProtMin ==> MealPenalty(cfg, carb, prot) == 0.0
    ensures carb < cfg.mealCarbMin && prot >= cfg.mealProtMin ==>
      MealPenalty(cfg, carb, prot) == (cfg.mealCarbMin - carb) * cfg.mealCarbWeight
    ensures carb >= cfg.mealCarbMin && prot < cfg.mealProtMin ==>
      MealPenalty(cfg, carb, prot) == (cfg.mealProtMin - prot) * cfg.mealProtWeight
    ensures cfg.mealCarbWeight >= 0.0 && cfg.mealProtWeight >= 0.0 ==> MealPenalty(cfg, carb, prot) >= 0.0
  {
  }

  lemma {:induction false} MenuMealPenaltyNonNegative(itens: seq<FoodItem>, cfg: Config, menu: seq<seq<Gene>>)
    requires ValidMenu(menu, |itens|)
    requires cfg.mealCarbWeight >= 0.0 && cfg.mealProtWeight >= 0.0
    ensures MenuMealPenalty(itens, cfg, menu) >= 0.0
  {
    if menu != [] {
      var last := MealNutr(itens, menu[|menu| - 1]);
      MenuMealPenaltyNonNegative(itens, cfg, menu[..|menu| - 1]);
      MealPenaltyMeaning(cfg, last.carb, last.prot);
    }
  }

  // ---------------------------------------------------------------------------
  // Density penalty
  // ---------------------------------------------------------------------------

  /** A gene pays the density penalty exactly when its food is denser than the
      threshold, and never a negative one. */
  lemma GeneDensityMeaning(itens: seq<FoodItem>, thr: real, g: Gene)
    requires 0 <= g.idx < |itens|
    ensures GeneDensity(itens, thr, g) >= 0.0
    ensures GeneDensity(itens, thr, g) > 0.0 <==> itens[g.idx].kcal > thr
  {
    var p := GenePortion(itens, g);
    assert 20 <= p;
  }

  lemma {:induction false} MealDensityNonNegative(itens: seq<FoodItem>, thr: real, meal: seq<Gene>)
    requires ValidMeal(meal, |itens|)
    ensures MealDensity(itens, thr, meal) >= 0.0
  {
    if meal != [] {
      MealDensityNonNegative(itens, thr, meal[..|meal| - 1]);
      GeneDensityMeaning(itens, thr, meal[|meal| - 1]);
    }
  }

  lemma {:induction false} MenuDensityNonNegative(itens: seq<FoodItem>, thr: real, menu: seq<seq<Gene>>)
    requires ValidMenu(menu, |itens|)
    ensures MenuDensity(itens, thr, menu) >= 0.0
  {
    if menu != [] {
      MenuDensityNonNegative(itens, thr, menu[..|menu| - 1]);
      MealDensityNonNegative(itens, thr, menu[|menu| - 1]);
    }
  }

  // ---------------------------------------------------------------------------
  // Restriction penalty
  // ---------------------------------------------------------------------------

  /** A meal's violation count is at most its number of genes, and zero
      exactly when none of its foods violates the restrictions. */
  lemma {:induction false} MealViolationsMeaning(itens: seq<FoodItem>, banned: seq<string>, meal: seq<Gene>)
    requires ValidMeal(meal, |itens|)
    ensures MealViolations(itens, banned, meal) <= |meal|
    ensures MealViolations(itens, banned, meal) == 0 <==>
      forall i :: 0 <= i < |meal| ==> !Violates(itens[meal[i].idx], banned)
  {
    if meal != [] {
      var init := meal[..|meal| - 1];
      MealViolationsMeaning(itens, banned, init);
      forall i | 0 <= i < |init|
        ensures init[i] == meal[i]
      {
      }
    }
  }

  /** With no banned words no gene is penalised. */
  lemma {:induction false} NoBannedNoViolations(itens: seq<FoodItem>, menu: seq<seq<Gene>>)
    requires ValidMenu(menu, |itens|)
    ensures MenuViolations(itens, [], menu) == 0
  {
    if menu != [] {
      var last := menu[|menu| - 1];
      NoBannedNoViolations(itens, menu[..|menu| - 1]);
      forall i | 0 <= i < |last|
        ensures !Violates(itens[last[i].idx], [])
      {
        ViolatesIff(itens[last[i].idx], []);
      }
      MealViolationsMeaning(itens, [], last);
    }
  }

  // ---------------------------------------------------------------------------
  // Usage dictionary
  // ---------------------------------------------------------------------------

  /** The clamped grams of food `id` in a meal, an independent sum. */
  function MealGrams(itens: seq<FoodItem>, meal: seq<Gene>, id: string): real
    requires ValidMeal(meal, |itens|)
  {
    if meal == [] then 0.0
    else
      var g := meal[|meal| - 1];
      MealGrams(itens, meal[..|meal| - 1], id) + (if itens[g.idx].id == id then GenePortion(itens, g) as real else 0.0)
  }

  function MenuGrams(itens: seq<FoodItem>, menu: seq<seq<Gene>>, id: string): real
    requires ValidMenu(menu, |itens|)
  {
    if menu == [] then 0.0 else MenuGrams(itens, menu[..|menu| - 1], id) + MealGrams(itens, menu[|menu| - 1], id)
  }

  /** Adding grams under one id changes its entry only. */
  lemma {:induction false} AddUseLookup(u: Usage, id: string, g: real, k: string)
    ensures Lookup(AddUse(u, id, g), k) == Lookup(u, k) + (if k == id then g else 0.0)
  {
    if u != [] && u[0].0 != id {
      AddUseLookup(u[1..], id, g, k);
      assert AddUse(u, id, g)[1..] == AddUse(u[1..], id, g);
    }
  }

  /** Adding grams under one id adds that id to the keys, if absent, and keeps
      the keys distinct. */
  lemma {:induction false} AddUseKeys(u: Usage, id: string, g: real)
    requires Random.NoDuplicates(Keys(u))
    ensures Random.NoDuplicates(Keys(AddUse(u, id, g)))
    ensures forall k :: k in Keys(AddUse(u, id, g)) <==> k in Keys(u) || k == id
  {
    if u != [] && u[0].0 != id {
      var ks, rest := Keys(u), Keys(u[1..]);
      assert ks == [u[0].0] + rest;
      assert Random.NoDuplicates(rest) by {
        forall i, j | 0 <= i < j < |rest|
          ensures rest[i] != rest[j]
        {
          assert rest[i] == ks[i + 1] && rest[j] == ks[j + 1];
        }
      }
      forall j | 0 <= j < |rest|
        ensures rest[j] != u[0].0
      {
        assert rest[j] == ks[j + 1];
      }
      AddUseKeys(u[1..], id, g);
      var rest' := Keys(AddUse(u[1..], id, g));
      var ks' := Keys(AddUse(u, id, g));
      assert ks' == [u[0].0] + rest';
      forall i, j | 0 <= i < j < |ks'|
        ensures ks'[i] != ks'[j]
      {
        if i > 0 {
          assert ks'[i] == rest'[i - 1] && ks'[j] == rest'[j - 1];
        } else {
          assert ks'[j] in rest';
        }
      }
    } else if u != [] {
      assert Keys(AddUse(u, id, g)) == Keys(u);
    }
  }

  lemma {:induction false} MealUsageLookup(itens: seq<FoodItem>, u: Usage, meal: seq<Gene>, id: string)
    requires ValidMeal(meal, |itens|)
    ensures Lookup(MealUsage(itens, u, meal), id) == Lookup(u, id) + MealGrams(itens, meal, id)
  {
    if meal != [] {
      var g := meal[|meal| - 1];
      MealUsageLookup(itens, u, meal[..|meal| - 1], id);
      AddUseLookup(MealUsage(itens, u, meal[..|meal| - 1]), itens[g.idx].id, GenePortion(itens, g) as real, id);
    }
  }

  /** `uso_por_id[id]` at the end of the loop is the clamped grams of food
      `id` over the whole day. */
  lemma {:induction false} MenuUsageLookup(itens: seq<FoodItem>, menu: seq<seq<Gene>>, id: string)
    requires ValidMenu(menu, |itens|)
    ensures Lookup(MenuUsage(itens, menu), id) == MenuGrams(itens, menu, id)
  {
    if menu != [] {
      MenuUsageLookup(itens, menu[..|menu| - 1], id);
      MealUsageLookup(itens, MenuUsage(itens, menu[..|menu| - 1]), menu[|menu| - 1], id);
    }
  }

  /** Some gene of the meal names a food with this id. */
  predicate MealHasId(itens: seq<FoodItem>, meal: seq<Gene>, id: string)
    requires ValidMeal(meal, |itens|)
  {
    exists i :: 0 <= i < |meal| && itens[meal[i].idx].id == id
  }

  lemma {:induction false} MealUsageKeys(itens: seq<FoodItem>, u: Usage, meal: seq<Gene>)
    requires ValidMeal(meal, |itens|)
    requires Random.NoDuplicates(Keys(u))
    ensures Random.NoDuplicates(Keys(MealUsage(itens, u, meal)))
    ensures forall k :: k in Keys(MealUsage(itens, u, meal)) <==> k in Keys(u) || MealHasId(itens, meal, k)
  {
    if meal != [] {
      var init := meal[..|meal| - 1];
      var g := meal[|meal| - 1];
      MealUsageKeys(itens, u, init);
      AddUseKeys(MealUsage(itens, u, init), itens[g.idx].id, GenePortion(itens, g) as real);
      MealHasIdSnoc(itens, meal);
    }
  }

  lemma MealHasIdSnoc(itens: seq<FoodItem>, meal: seq<Gene>)
    requires ValidMeal(meal, |itens|) && meal != []
    ensures forall k :: MealHasId(itens, meal, k) <==>
      MealHasId(itens, meal[..|meal| - 1], k) || k == itens[meal[|meal| - 1].idx].id
  {
    var init := meal[..|meal| - 1];
    forall k
      ensures MealHasId(itens, meal, k) <==> MealHasId(itens, init, k) || k == itens[meal[|meal| - 1].idx].id
    {
      if MealHasId(itens, meal, k) {
        var i :| 0 <= i < |meal| && itens[meal[i].idx].id == k;
        if i < |init| {
          assert init[i] == meal[i];
        }
      }
      if MealHasId(itens, init, k) {
        var i :| 0 <= i < |init| && itens[init[i].idx].id == k;
        assert meal[i] == init[i];
      }
    }
  }

  /** Some meal of the day holds a gene for food `id`. */
  predicate MenuHasId(itens: seq<FoodItem>, menu: seq<seq<Gene>>, id: string)
    requires ValidMenu(menu, |itens|)
  {
    exists m :: 0 <= m < |menu| && MealHasId(itens, menu[m], id)
  }

  /** The usage dictionary has one entry per food of the day, each once. */
  lemma {:induction false} MenuUsageKeys(itens: seq<FoodItem>, menu: seq<seq<Gene>>)
    requires ValidMenu(menu, |itens|)
    ensures Random.NoDuplicates(Keys(MenuUsage(itens, menu)))
    ensures forall k :: k in Keys(MenuUsage(itens, menu)) <==> MenuHasId(itens, menu, k)
  {
    if menu != [] {
      var init := menu[..|menu| - 1];
      var last := menu[|menu| - 1];
      MenuUsageKeys(itens, init);
      MealUsageKeys(itens, MenuUsage(itens, init), last);
      MenuHasIdSnoc(itens, menu);
    }
  }

  lemma MenuHasIdSnoc(itens: seq<FoodItem>, menu: seq<seq<Gene>>)
    requires ValidMenu(menu, |itens|) && menu != []
    ensures forall k :: MenuHasId(itens, menu, k) <==>
      MenuHasId(itens, menu[..|menu| - 1], k) || MealHasId(itens, menu[|menu| - 1], k)
  {
    var init := menu[..|menu| - 1];
    forall k
      ensures MenuHasId(itens, menu, k) <==> MenuHasId(itens, init, k) || MealHasId(itens, menu[|menu| - 1], k)
    {
      if MenuHasId(itens, menu, k) {
        var m :| 0 <= m < |menu| && MealHasId(itens, menu[m], k);
        if m < |init| {
          assert init[m] == menu[m];
        }
      }
      if MenuHasId(itens, init, k) {
        var m :| 0 <= m < |init| && MealHasId(itens, init[m], k);
        assert menu[m] == init[m];
      }
    }
  }


  // ---------------------------------------------------------------------------
  // Variety penalty
  // ---------------------------------------------------------------------------

  /** What one entry of the usage dictionary costs. */
  function Excess(g: real): real {
    if g > 350.0 then (g - 350.0) * 2.0 else 0.0
  }

  /** The variety penalty is never negative, charges every entry its excess
      over 350 g, and is zero exactly when no entry exceeds 350 g. */
  lemma {:induction false} VarietyPenaltyMeaning(u: Usage)
    ensures VarietyPenalty(u) >= 0.0
    ensures forall k :: 0 <= k < |u| ==> VarietyPenalty(u) >= Excess(u[k].1)
    ensures VarietyPenalty(u) == 0.0 <==> forall k :: 0 <= k < |u| ==> u[k].1 <= 350.0
  {
    if u != [] {
      var init := u[..|u| - 1];
      VarietyPenaltyMeaning(init);
      forall k | 0 <= k < |init|
        ensures init[k] == u[k]
      {
      }
    }
  }

  // ---------------------------------------------------------------------------
  // The score
  // ---------------------------------------------------------------------------

  predicate NonNegativeWeights(cfg: Config) {
    var w := cfg.weights;
    w.alpha >= 0.0 && w.beta >= 0.0 && w.gamma >= 0.0 && w.delta >= 0.0 && w.eps >= 0.0
      && cfg.mealCarbWeight >= 0.0 && cfg.mealProtWeight >= 0.0
  }

  /** With non-negative weights and penalties, every summand of J is
      non-negative. */
  lemma TermsNonNegative(t: Targets, cfg: Config, n: Nutrients, restr: real, dens: real, meal: real, variety: real)
    requires NonNegativeWeights(cfg)
    requires restr >= 0.0 && dens >= 0.0 && meal >= 0.0 && variety >= 0.0
    ensures Total(TermsOf(t, cfg, n, restr, dens, meal, variety)) >= 0.0
  {
    var w := cfg.weights;
    ErrorTermsNonNegative(n.kcal, t.kcal);
    ErrorTermsNonNegative(n.carb, t.carb);
    ErrorTermsNonNegative(n.prot, t.prot);
    ErrorTermsNonNegative(n.fat, t.fat);
    BudgetExcessMeaning(n.cost, cfg.budget);
    ProtExtraMeaning(n.prot, t.prot);
    assert w.alpha * KcalPen(n.kcal, t.kcal) >= 0.0;
    assert w.beta * CarbPen(n.carb, t.carb) >= 0.0;
    assert w.gamma * ProtPen(n.prot, t.prot) >= 0.0;
    assert w.delta * FatPen(n.fat, t.fat) >= 0.0;
    assert w.eps * BudgetExcess(n.cost, cfg.budget) >= 0.0;
  }

  /** J >= 0 for every menu when the weights are non-negative. */
  lemma ScoreNonNegative(itens: seq<FoodItem>, t: Targets, cfg: Config, menu: seq<seq<Gene>>)
    requires ValidMenu(menu, |itens|)
    requires NonNegativeWeights(cfg)
    ensures Evaluate(itens, t, cfg, menu).j >= 0.0
  {
    MenuDensityNonNegative(itens, cfg.densThr, menu);
    MenuMealPenaltyNonNegative(itens, cfg, menu);
    VarietyPenaltyMeaning(MenuUsage(itens, menu));
    TermsNonNegative(t, cfg, MenuNutr(itens, menu),
      500.0 * MenuViolations(itens, cfg.banned, menu) as real,
      MenuDensity(itens, cfg.densThr, menu),
      MenuMealPenalty(itens, cfg, menu),
      VarietyPenalty(MenuUsage(itens, menu)));
  }

  /** With no banned words the restriction term of J is zero. */
  lemma RestrictionTermWithoutBans(itens: seq<FoodItem>, t: Targets, cfg: Config, menu: seq<seq<Gene>>)
    requires ValidMenu(menu, |itens|)
    ensures cfg.banned == [] ==> Breakdown(itens, t, cfg, menu).restr == 0.0
  {
    if cfg.banned == [] {
      NoBannedNoViolations(itens, menu);
    }
  }

  // ---------------------------------------------------------------------------
  // Reporting the clamped portions
  // ---------------------------------------------------------------------------

  /** A gene carrying the portion the score counts for it. */
  function ClampGene(itens: seq<FoodItem>, g: Gene): Gene
    requires 0 <= g.idx < |itens|
  {
    Gene(g.idx, GenePortion(itens, g))
  }

  function ClampedMeal(itens: seq<FoodItem>, meal: seq<Gene>): (r: seq<Gene>)
    requires ValidMeal(meal, |itens|)
    ensures |r| == |meal| && ValidMeal(r, |itens|)
  {
    seq(|meal|, i requires 0 <= i < |meal| => ClampGene(itens, meal[i]))
  }

  /** The menu as `gerar_cardapio` reports it: every portion through `_safe_portion`. */
  function ClampedMenu(itens: seq<FoodItem>, menu: seq<seq<Gene>>): (r: seq<seq<Gene>>)
    requires ValidMenu(menu, |itens|)
    ensures |r| == |menu| && ValidMenu(r, |itens|)
  {
    seq(|menu|, k requires 0 <= k < |menu| => ClampedMeal(itens, menu[k]))
  }

  /** A clamped gene counts exactly as the gene it came from. */
  lemma GeneClampInvisible(itens: seq<FoodItem>, cfg: Config, g: Gene)
    requires 0 <= g.idx < |itens|
    ensures var c := ClampGene(itens, g);
      && GenePortion(itens, c) == GenePortion(itens, g) && Item(itens, c) == Item(itens, g)
      && GeneNutr(itens, c) == GeneNutr(itens, g)
      && GeneDensity(itens, cfg.densThr, c) == GeneDensity(itens, cfg.densThr, g)
      && GeneViolation(itens, cfg.banned, c) == GeneViolation(itens, cfg.banned, g)
  {
    SafePortionIdempotent(itens[g.idx], g.portion);
  }

  lemma {:induction false} MealClampInvisible(itens: seq<FoodItem>, cfg: Config, u: Usage, meal: seq<Gene>)
    requires ValidMeal(meal, |itens|)
    ensures var c := ClampedMeal(itens, meal);
      && MealNutr(itens, c) == MealNutr(itens, meal)
      && MealDensity(itens, cfg.densThr, c) == MealDensity(itens, cfg.densThr, meal)
      && MealViolations(itens, cfg.banned, c) == MealViolations(itens, cfg.banned, meal)
      && MealUsage(itens, u, c) == MealUsage(itens, u, meal)
  {
    if meal != [] {
      var init := meal[..|meal| - 1];
      MealClampInvisible(itens, cfg, u, init);
      var c := ClampedMeal(itens, meal);
      assert c[..|meal| - 1] == ClampedMeal(itens, init);
      assert c[|meal| - 1] == ClampGene(itens, meal[|meal| - 1]);
      GeneClampInvisible(itens, cfg, meal[|meal| - 1]);
    }
  }

  lemma {:induction false} MenuClampInvisible(itens: seq<FoodItem>, cfg: Config, menu: seq<seq<Gene>>)
    requires ValidMenu(menu, |itens|)
    ensures var c := ClampedMenu(itens, menu);
      && MenuNutr(itens, c) == MenuNutr(itens, menu)
      && MenuDensity(itens, cfg.densThr, c) == MenuDensity(itens, cfg.densThr, menu)
      && MenuViolations(itens, cfg.banned, c) == MenuViolations(itens, cfg.banned, menu)
      && MenuMealPenalty(itens, cfg, c) == MenuMealPenalty(itens, cfg, menu)
      && MenuUsage(itens, c) == MenuUsage(itens, menu)
  {
    if menu != [] {
      var init := menu[..|menu| - 1];
      MenuClampInvisible(itens, cfg, init);
      var c := ClampedMenu(itens, menu);
      assert c[..|menu| - 1] == ClampedMenu(itens, init);
      assert c[|menu| - 1] == ClampedMeal(itens, menu[|menu| - 1]);
      MealClampInvisible(itens, cfg, MenuUsage(itens, init), menu[|menu| - 1]);
    }
  }

  /** Scoring the reported portions gives the score of the menu they were
      reported from, so the fitness `gerar_cardapio` returns is the fitness of
      the meals it lists. */
  lemma EvaluateOfClamped(itens: seq<FoodItem>, t: Targets, cfg: Config, menu: seq<seq<Gene>>)
    requires ValidMenu(menu, |itens|)
    ensures Evaluate(itens, t, cfg, ClampedMenu(itens, menu)) == Evaluate(itens, t, cfg, menu)
  {
    MenuClampInvisible(itens, cfg, menu);
  }

  /** Clamping the reported portions again changes nothing. */
  lemma ClampedMenuIdempotent(itens: seq<FoodItem>, menu: seq<seq<Gene>>)
    requires ValidMenu(menu, |itens|)
    ensures ClampedMenu(itens, ClampedMenu(itens, menu)) == ClampedMenu(itens, menu)
  {
    var c := ClampedMenu(itens, menu);
    forall k, i | 0 <= k < |menu| && 0 <= i < |menu[k]|
      ensures ClampGene(itens, c[k][i]) == c[k][i]
    {
      SafePortionIdempotent(itens[menu[k][i].idx], menu[k][i].portion);
    }
    assert forall k :: 0 <= k < |menu| ==> ClampedMeal(itens, c[k]) == c[k];
  }
}
