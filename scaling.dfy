/** The calorie adjustment applied to the best menu
    (assets/genetic_module/genetic_module.py:532-591): `_totais_cardapio` sums
    the nutrients of a menu at its stored portions, and `_escala_para_kcal`
    multiplies every portion by one global factor so that the day's energy
    approaches the target, clamping each new portion again. */
module Scaling {
  import opened Common
  import opened Foods
  import opened Menu
  import opened Fitness

  // ---------------------------------------------------------------------------
  // _totais_cardapio
  // ---------------------------------------------------------------------------

  /** The nutrients of a gene at its stored portion: `_totais_cardapio` does
      not clamp. */
  function RawGeneNutr(itens: seq<FoodItem>, g: Gene): Nutrients
    requires 0 <= g.idx < |itens|
  {
    NutrPerPortion(itens[g.idx], g.portion as real)
  }

  function RawMealNutr(itens: seq<FoodItem>, meal: seq<Gene>): Nutrients
    requires ValidMeal(meal, |itens|)
  {
    if meal == [] then Zero
    else RawMealNutr(itens, meal[..|meal| - 1]).Plus(RawGeneNutr(itens, meal[|meal| - 1]))
  }

  function RawMenuNutr(itens: seq<FoodItem>, menu: seq<seq<Gene>>): Nutrients
    requires ValidMenu(menu, |itens|)
  {
    if menu == [] then Zero
    else RawMenuNutr(itens, menu[..|menu| - 1]).Plus(RawMealNutr(itens, menu[|menu| - 1]))
  }

  /** When every stored portion is one the clamp keeps, the unclamped totals
      are the totals the evaluation counts. */
  lemma {:induction false} RawMealIsClamped(itens: seq<FoodItem>, meal: seq<Gene>)
    requires ValidMeal(meal, |itens|)
    requires forall i :: 0 <= i < |meal| ==> SafePortion(itens[meal[i].idx], meal[i].portion) == meal[i].portion
    ensures RawMealNutr(itens, meal) == MealNutr(itens, meal)
  {
    if meal != [] {
      RawMealIsClamped(itens, meal[..|meal| - 1]);
      var g := meal[|meal| - 1];
      assert GenePortion(itens, g) == g.portion;
    }
  }

  lemma {:induction false} RawMenuIsClamped(itens: seq<FoodItem>, menu: seq<seq<Gene>>)
    requires ValidMenu(menu, |itens|)
    requires forall k, i :: 0 <= k < |menu| && 0 <= i < |menu[k]| ==>
      SafePortion(itens[menu[k][i].idx], menu[k][i].portion) == menu[k][i].portion
    ensures RawMenuNutr(itens, menu) == MenuNutr(itens, menu)
  {
    if menu != [] {
      var init := menu[..|menu| - 1];
      assert ValidMenu(init, |itens|);
      assert forall k :: 0 <= k < |init| ==> init[k] == menu[k];
      RawMenuIsClamped(itens, init);
      RawMealIsClamped(itens, menu[|menu| - 1]);
    }
  }

  /** The inner loop of `_totais_cardapio` over one meal's genes. */
  method MealTotals(itens: seq<FoodItem>, meal: Meal, acc0: Nutrients) returns (acc: Nutrients)
    requires ValidMeal(meal[..], |itens|)
    ensures acc == acc0.Plus(RawMealNutr(itens, meal[..]))
  {
    acc := acc0;
    var i := 0;
    while i < meal.Length
      invariant 0 <= i <= meal.Length
      invariant ValidMeal(meal[..i], |itens|)
      invariant acc == acc0.Plus(RawMealNutr(itens, meal[..i]))
    {
      assert meal[..i + 1][..i] == meal[..i];
      PlusAssoc(acc0, RawMealNutr(itens, meal[..i]), RawGeneNutr(itens, meal[i]));
      acc := acc.Plus(RawGeneNutr(itens, meal[i]));
      i := i + 1;
    }
    assert meal[..meal.Length] == meal[..];
  }

  /** `_totais_cardapio`: the kcal, carbohydrate, protein, fat and cost of a
      menu, summed gene by gene at the stored portions. */
  method Totals(itens: seq<FoodItem>, sol: Individual) returns (tot: Nutrients)
    requires ValidMenu(Contents(sol), |itens|)
    ensures tot == RawMenuNutr(itens, Contents(sol))
  {
    ghost var menu := Contents(sol);
    tot := Zero;
    var m := 0;
    while m < |sol|
      invariant 0 <= m <= |sol|
      invariant ValidMenu(menu[..m], |itens|)
      invariant tot == RawMenuNutr(itens, menu[..m])
    {
      assert menu[..m + 1][..m] == menu[..m];
      tot := MealTotals(itens, sol[m], tot);
      m := m + 1;
    }
    assert menu[..|sol|] == menu;
  }

  // ---------------------------------------------------------------------------
  // _escala_para_kcal
  // ---------------------------------------------------------------------------

  /** `max(fator_min, min(fator_max, alvo / kcal))`. */
  function Factor(alvo: real, kcal: real, fmin: real, fmax: real): (f: real)
    requires kcal > 0.0
    ensures fmin <= fmax ==> fmin <= f <= fmax
    ensures fmin <= alvo / kcal <= fmax ==> f == alvo / kcal
    ensures alvo / kcal < fmin ==> f == fmin
    ensures fmin <= fmax < alvo / kcal ==> f == fmax
  {
    MaxR(fmin, MinR(fmax, alvo / kcal))
  }

  /** The factor a menu is scaled by, or `None` when `_escala_para_kcal`
      returns the menu as it is: when its energy is not positive, or when
      the factor lies within 5 % of 1. */
  function ScaleFactor(alvo: real, kcal: real, fmin: real, fmax: real): (r: Option<real>)
    ensures kcal <= 0.0 ==> r.None?
    ensures kcal > 0.0 ==> (r.None? <==> 0.95 <= Factor(alvo, kcal, fmin, fmax) <= 1.05)
    ensures r.Some? ==> kcal > 0.0 && r.value == Factor(alvo, kcal, fmin, fmax)
  {
    if kcal <= 0.0 then None
    else
      var f := Factor(alvo, kcal, fmin, fmax);
      if 0.95 <= f <= 1.05 then None else Some(f)
  }

  /** A gene whose portion is multiplied by `f`, rounded half to even and
      clamped again for its item. */
  function ScaledGene(itens: seq<FoodItem>, f: real, g: Gene): (r: Gene)
    requires 0 <= g.idx < |itens|
    ensures r.idx == g.idx && 20 <= r.portion <= 250
    ensures r.portion == SafePortion(itens[g.idx], RoundHalfEven(g.portion as real * f))
  {
    Gene(g.idx, SafePortion(itens[g.idx], RoundHalfEven(g.portion as real * f)))
  }

  function ScaledMeal(itens: seq<FoodItem>, f: real, meal: seq<Gene>): (r: seq<Gene>)
    requires ValidMeal(meal, |itens|)
    ensures |r| == |meal| && ValidMeal(r, |itens|) && PortionsInRange(r)
    ensures forall i :: 0 <= i < |meal| ==> r[i] == ScaledGene(itens, f, meal[i])
  {
    seq(|meal|, i requires 0 <= i < |meal| => ScaledGene(itens, f, meal[i]))
  }

  function ScaledMenu(itens: seq<FoodItem>, f: real, menu: seq<seq<Gene>>): (r: seq<seq<Gene>>)
    requires ValidMenu(menu, |itens|)
    ensures |r| == |menu| && ValidMenu(r, |itens|)
    ensures forall k :: 0 <= k < |menu| ==> r[k] == ScaledMeal(itens, f, menu[k])
  {
    seq(|menu|, k requires 0 <= k < |menu| => ScaledMeal(itens, f, menu[k]))
  }

  /** What `_escala_para_kcal` returns, on the genes. */
  function ScaleToKcalSpec(itens: seq<FoodItem>, alvo: real, fmin: real, fmax: real, menu: seq<seq<Gene>>): (r: seq<seq<Gene>>)
    requires ValidMenu(menu, |itens|)
    ensures |r| == |menu| && ValidMenu(r, |itens|)
    ensures forall k :: 0 <= k < |menu| ==> |r[k]| == |menu[k]|
  {
    match ScaleFactor(alvo, RawMenuNutr(itens, menu).kcal, fmin, fmax)
    case None => menu
    case Some(f) => ScaledMenu(itens, f, menu)
  }

  /** The scaled menu keeps the shape of the input and the food of every
      gene, and every new portion is the clamp of the rounded product. */
  lemma ScaledMenuShape(itens: seq<FoodItem>, f: real, menu: seq<seq<Gene>>)
    requires ValidMenu(menu, |itens|)
    ensures var r := ScaledMenu(itens, f, menu);
      && |r| == |menu|
      && (forall k :: 0 <= k < |menu| ==> |r[k]| == |menu[k]| && PortionsInRange(r[k]))
      && (forall k, i :: 0 <= k < |menu| && 0 <= i < |menu[k]| ==>
            r[k][i].idx == menu[k][i].idx
            && r[k][i].portion == SafePortion(itens[menu[k][i].idx], RoundHalfEven(menu[k][i].portion as real * f)))
  {
    var r: seq<seq<Gene>> := ScaledMenu(itens, f, menu);
    forall k: int, i: int | 0 <= k < |menu| && 0 <= i < |menu[k]|
      ensures r[k][i].idx == menu[k][i].idx
      ensures r[k][i].portion == SafePortion(itens[menu[k][i].idx], RoundHalfEven(menu[k][i].portion as real * f))
    {
      assert r[k] == ScaledMeal(itens, f, menu[k]);
      assert r[k][i] == ScaledGene(itens, f, menu[k][i]);
    }
  }

  /** Every portion of a scaled menu is one the clamp keeps, so its unclamped
      totals are the totals the evaluation will count. */
  lemma ScaledMenuIsClamped(itens: seq<FoodItem>, f: real, menu: seq<seq<Gene>>)
    requires ValidMenu(menu, |itens|)
    ensures ValidMenu(ScaledMenu(itens, f, menu), |itens|)
    ensures RawMenuNutr(itens, ScaledMenu(itens, f, menu)) == MenuNutr(itens, ScaledMenu(itens, f, menu))
  {
    var r: seq<seq<Gene>> := ScaledMenu(itens, f, menu);
    ScaledMenuShape(itens, f, menu);
    forall k: int, i: int | 0 <= k < |r| && 0 <= i < |r[k]|
      ensures SafePortion(itens[r[k][i].idx], r[k][i].portion) == r[k][i].portion
    {
      var g := menu[k][i];
      SafePortionIdempotent(itens[g.idx], RoundHalfEven(g.portion as real * f));
    }
    RawMenuIsClamped(itens, r);
  }

  /** The menu is returned unchanged exactly when its energy is not positive
      or the clamped factor is already within [0.95, 1.05]. */
  lemma ScaleToKcalUnchanged(itens: seq<FoodItem>, alvo: real, fmin: real, fmax: real, menu: seq<seq<Gene>>)
    requires ValidMenu(menu, |itens|)
    ensures var kcal := RawMenuNutr(itens, menu).kcal;
      (kcal <= 0.0 || 0.95 <= Factor(alvo, if kcal > 0.0 then kcal else 1.0, fmin, fmax) <= 1.05)
        ==> ScaleToKcalSpec(itens, alvo, fmin, fmax, menu) == menu
  {
  }

  /** When the ratio `alvo / kcal` is inside the factor range, the scaling
      factor is exactly that ratio: the unrounded, unclamped portions would
      carry the target energy. */
  lemma FactorHitsTarget(alvo: real, kcal: real, fmin: real, fmax: real)
    requires kcal > 0.0 && fmin <= alvo / kcal <= fmax
    ensures Factor(alvo, kcal, fmin, fmax) * kcal == alvo
  {
  }

  /** One meal of the scaled menu: a new list filled gene by gene. */
  method ScaleMeal(itens: seq<FoodItem>, f: real, meal: Meal) returns (nova: Meal)
    requires ValidMeal(meal[..], |itens|)
    ensures fresh(nova)
    ensures nova[..] == ScaledMeal(itens, f, meal[..])
  {
    nova := new Gene[meal.Length];
    var i := 0;
    while i < meal.Length
      invariant 0 <= i <= meal.Length
      invariant forall j :: 0 <= j < i ==> nova[j] == ScaledGene(itens, f, meal[j])
    {
      nova[i] := ScaledGene(itens, f, meal[i]);
      i := i + 1;
    }
  }

  /** The building loop of `_escala_para_kcal`: every meal becomes a new list. */
  method ScaleMenu(itens: seq<FoodItem>, f: real, sol: Individual) returns (res: Individual)
    requires ValidMenu(Contents(sol), |itens|)
    ensures forall k :: 0 <= k < |res| ==> fresh(res[k])
    ensures Distinct(res)
    ensures Contents(res) == ScaledMenu(itens, f, Contents(sol))
  {
    ghost var menu := Contents(sol);
    ghost var target := ScaledMenu(itens, f, menu);
    res := [];
    var m := 0;
    while m < |sol|
      invariant 0 <= m <= |sol| && |res| == m
      invariant forall k :: 0 <= k < m ==> fresh(res[k])
      invariant Distinct(res)
      invariant Contents(sol) == menu
      invariant Contents(res) == target[..m]
    {
      var nova := ScaleMeal(itens, f, sol[m]);
      ContentsSnoc(res, nova);
      res := res + [nova];
      m := m + 1;
    }
  }

  /** `_escala_para_kcal(sol, ..., targets, fator_min, fator_max)`: the totals
      at the stored portions, then either `sol` itself or a new menu whose
      portions are scaled by the clamped factor. */
  method ScaleToKcal(itens: seq<FoodItem>, alvo: real, fmin: real, fmax: real, sol: Individual)
    returns (res: Individual)
    requires ValidMenu(Contents(sol), |itens|)
    ensures ScaleFactor(alvo, RawMenuNutr(itens, Contents(sol)).kcal, fmin, fmax).None? ==> res == sol
    ensures ScaleFactor(alvo, RawMenuNutr(itens, Contents(sol)).kcal, fmin, fmax).Some? ==>
      (forall k :: 0 <= k < |res| ==> fresh(res[k])) && Distinct(res)
    ensures Contents(res) == ScaleToKcalSpec(itens, alvo, fmin, fmax, Contents(sol))
  {
    var tot := Totals(itens, sol);
    var kcalAtual := tot.kcal;
    if kcalAtual <= 0.0 {
      return sol;
    }
    var fator := alvo / kcalAtual;
    fator := MaxR(fmin, MinR(fmax, fator));
    if 0.95 <= fator <= 1.05 {
      return sol;
    }
    res := ScaleMenu(itens, fator, sol);
  }
}
