/** The variation operators of the optimiser
    (assets/genetic_module/genetic_module.py:449-526): one-point crossover on
    the meal list, and mutation, which edits the meals of an individual in
    place.  Crossover copies only the outer list, so children share meal
    arrays with their parents; mutation then writes into those arrays. */
module Operators {
  import opened Common
  import opened Foods
  import opened Menu
  import opened Random

  // ---------------------------------------------------------------------------
  // Crossover
  // ---------------------------------------------------------------------------

  /** The two children for cut point `cp`: `p1[:cp] + p2[cp:]` and
      `p2[:cp] + p1[cp:]`. */
  function CrossAt<M>(p1: seq<M>, p2: seq<M>, cp: int): (seq<M>, seq<M>) {
    (Take(p1, cp) + Drop(p2, cp), Take(p2, cp) + Drop(p1, cp))
  }

  /** For parents of one length and a cut inside them, each child has that
      length, takes its head from one parent and its tail from the other, and
      together the children hold exactly the parents' meals. */
  lemma CrossAtLaws<M>(p1: seq<M>, p2: seq<M>, cp: int)
    requires |p1| == |p2| && 1 <= cp < |p1|
    ensures |CrossAt(p1, p2, cp).0| == |p1| && |CrossAt(p1, p2, cp).1| == |p1|
    ensures forall i :: 0 <= i < cp ==> CrossAt(p1, p2, cp).0[i] == p1[i] && CrossAt(p1, p2, cp).1[i] == p2[i]
    ensures forall i :: cp <= i < |p1| ==> CrossAt(p1, p2, cp).0[i] == p2[i] && CrossAt(p1, p2, cp).1[i] == p1[i]
    ensures multiset(CrossAt(p1, p2, cp).0) + multiset(CrossAt(p1, p2, cp).1) == multiset(p1) + multiset(p2)
  {
    assert p1 == p1[..cp] + p1[cp..];
    assert p2 == p2[..cp] + p2[cp..];
  }

  /** `_crossover`: with fewer than two meals the children are copies of the
      parents; otherwise the cut is `randrange(1, n)`, one draw. */
  function Crossover<M>(p1: seq<M>, p2: seq<M>, s: nat -> nat, pos: nat): (r: (seq<M>, seq<M>, nat))
    ensures |p1| < 2 ==> r == (p1, p2, pos)
  {
    if |p1| < 2 then (p1, p2, pos)
    else
      var cp := 1 + Below(s, pos, |p1| - 1);
      var c := CrossAt(p1, p2, cp);
      (c.0, c.1, pos + 1)
  }

  /** With two meals or more, `_crossover` makes one draw and cuts both
      parents at a point strictly inside them. */
  lemma CrossoverCut<M>(p1: seq<M>, p2: seq<M>, s: nat -> nat, pos: nat)
    requires |p1| >= 2
    ensures var r := Crossover(p1, p2, s, pos);
      r.2 == pos + 1 && exists cp :: 1 <= cp < |p1| && (r.0, r.1) == CrossAt(p1, p2, cp)
  {
    var cp := 1 + Below(s, pos, |p1| - 1);
    assert 1 <= cp < |p1|;
  }

  /** Each child holds, at every position, the meal one of the parents holds
      at that position. */
  lemma CrossoverKeepsSlots<M>(p1: seq<M>, p2: seq<M>, s: nat -> nat, pos: nat)
    requires |p1| == |p2|
    ensures var c := Crossover(p1, p2, s, pos);
      && |c.0| == |p1| && |c.1| == |p1|
      && (forall k :: 0 <= k < |p1| ==> c.0[k] == p1[k] || c.0[k] == p2[k])
      && (forall k :: 0 <= k < |p1| ==> c.1[k] == p1[k] || c.1[k] == p2[k])
  {
    if |p1| >= 2 {
      CrossAtLaws(p1, p2, 1 + Below(s, pos, |p1| - 1));
    }
  }

  method CrossoverStep<M>(p1: seq<M>, p2: seq<M>, rng: Rng) returns (f1: seq<M>, f2: seq<M>)
    modifies rng
    ensures (f1, f2, rng.pos) == Crossover(p1, p2, rng.stream, old(rng.pos))
  {
    var n := |p1|;
    if n < 2 {
      return p1, p2;
    }
    var d := rng.NextBelow(n - 1);
    var cp := 1 + d;
    f1, f2 := Take(p1, cp) + Drop(p2, cp), Take(p2, cp) + Drop(p1, cp);
  }

  // ---------------------------------------------------------------------------
  // Mutation, one meal at a time
  // ---------------------------------------------------------------------------

  /** Catalogue positions whose item is high-protein, or all of them when there
      is none (`[...] or full_idx`). */
  function ProtIds(itens: seq<FoodItem>): (r: seq<int>)
    ensures forall i :: i in r ==> 0 <= i < |itens|
  {
    OrElse(Filter(Range(|itens|), i => 0 <= i < |itens| && IsHighProtein(itens[i])), Range(|itens|))
  }

  /** Catalogue positions whose item is a carbohydrate base, or all of them. */
  function CarbIds(itens: seq<FoodItem>): (r: seq<int>)
    ensures forall i :: i in r ==> 0 <= i < |itens|
  {
    OrElse(Filter(Range(|itens|), i => 0 <= i < |itens| && IsCarbBase(itens[i])), Range(|itens|))
  }

  /** The item swap: with probability 0.25 one gene gets a random catalogue
      item and keeps its grams (which are not re-clamped). */
  function SwapStep(n: nat, meal: seq<Gene>, s: nat -> nat, pos: nat): (seq<Gene>, nat)
    requires |meal| > 0
  {
    if Unit(s, pos) < 0.25 && n > 0 then
      var i := Below(s, pos + 1, |meal|);
      (meal[i := Gene(Below(s, pos + 2, n), meal[i].portion)], pos + 3)
    else (meal, pos + 1)
  }

  /** `random.choice([-20, +20])`. */
  function Delta(s: nat -> nat, pos: nat): int {
    [-20, 20][Below(s, pos, 2)]
  }

  /** The portion nudge: with probability 0.40 one gene moves 20 g up or down
      and is clamped for its item. */
  function PortionStep(itens: seq<FoodItem>, meal: seq<Gene>, s: nat -> nat, pos: nat): (seq<Gene>, nat)
    requires |meal| > 0 && ValidMeal(meal, |itens|)
  {
    if Unit(s, pos) < 0.40 then
      var j := Below(s, pos + 1, |meal|);
      var g := meal[j];
      (meal[j := Gene(g.idx, SafePortion(itens[g.idx], g.portion + Delta(s, pos + 2)))], pos + 3)
    else (meal, pos + 1)
  }

  predicate HasProt(itens: seq<FoodItem>, meal: seq<Gene>)
    requires ValidMeal(meal, |itens|)
  {
    exists i :: 0 <= i < |meal| && IsHighProtein(itens[meal[i].idx])
  }

  predicate HasCarb(itens: seq<FoodItem>, meal: seq<Gene>)
    requires ValidMeal(meal, |itens|)
  {
    exists i :: 0 <= i < |meal| && IsCarbBase(itens[meal[i].idx])
  }

  /** One repair: a random slot gets a random item of `ids`, with the slot's
      grams clamped for the new item. */
  function Replace(itens: seq<FoodItem>, meal: seq<Gene>, ids: seq<int>, s: nat -> nat, pos: nat): (seq<Gene>, nat)
    requires |meal| > 0 && ids != []
    requires forall i :: i in ids ==> 0 <= i < |itens|
  {
    var j := Below(s, pos, |meal|);
    var idx := Choice(s, pos + 1, ids);
    (meal[j := Gene(idx, SafePortion(itens[idx], meal[j].portion))], pos + 2)
  }

  /** The repair: both flags are read first, then a missing protein and a
      missing carbohydrate base are each put in a random slot. */
  function RepairStep(itens: seq<FoodItem>, meal: seq<Gene>, s: nat -> nat, pos: nat): (seq<Gene>, nat)
    requires |itens| > 0 && |meal| > 0 && ValidMeal(meal, |itens|)
  {
    var hasProt := HasProt(itens, meal);
    var hasCarb := HasCarb(itens, meal);
    var a := if !hasProt then Replace(itens, meal, ProtIds(itens), s, pos) else (meal, pos);
    if !hasCarb then Replace(itens, a.0, CarbIds(itens), s, a.1) else a
  }

  /** The body of `_mutar`'s loop on one meal, with the context the optimiser
      always passes. */
  function MutateMeal(itens: seq<FoodItem>, meal: seq<Gene>, s: nat -> nat, pos: nat): (r: (seq<Gene>, nat))
    requires |itens| > 0 && |meal| > 0 && ValidMeal(meal, |itens|)
  {
    var a := SwapStep(|itens|, meal, s, pos);
    SwapStepShape(|itens|, meal, s, pos);
    var b := PortionStep(itens, a.0, s, a.1);
    PortionStepShape(itens, a.0, s, a.1);
    RepairStepShape(itens, b.0, s, b.1);
    RepairStep(itens, b.0, s, b.1)
  }

  lemma SwapStepShape(n: nat, meal: seq<Gene>, s: nat -> nat, pos: nat)
    requires |meal| > 0
    ensures |SwapStep(n, meal, s, pos).0| == |meal|
    ensures ValidMeal(meal, n) ==> ValidMeal(SwapStep(n, meal, s, pos).0, n)
    ensures PortionsInRange(meal) ==> PortionsInRange(SwapStep(n, meal, s, pos).0)
    ensures forall i :: 0 <= i < |meal| ==> SwapStep(n, meal, s, pos).0[i].portion == meal[i].portion
  {
  }

  lemma PortionStepShape(itens: seq<FoodItem>, meal: seq<Gene>, s: nat -> nat, pos: nat)
    requires |meal| > 0 && ValidMeal(meal, |itens|)
    ensures |PortionStep(itens, meal, s, pos).0| == |meal|
    ensures ValidMeal(PortionStep(itens, meal, s, pos).0, |itens|)
    ensures PortionsInRange(meal) ==> PortionsInRange(PortionStep(itens, meal, s, pos).0)
    ensures forall i :: 0 <= i < |meal| ==> PortionStep(itens, meal, s, pos).0[i].idx == meal[i].idx
  {
  }

  lemma ReplaceShape(itens: seq<FoodItem>, meal: seq<Gene>, ids: seq<int>, s: nat -> nat, pos: nat)
    requires |meal| > 0 && ids != []
    requires forall i :: i in ids ==> 0 <= i < |itens|
    ensures |Replace(itens, meal, ids, s, pos).0| == |meal|
    ensures ValidMeal(meal, |itens|) ==> ValidMeal(Replace(itens, meal, ids, s, pos).0, |itens|)
    ensures PortionsInRange(meal) ==> PortionsInRange(Replace(itens, meal, ids, s, pos).0)
  {
  }

  lemma RepairStepShape(itens: seq<FoodItem>, meal: seq<Gene>, s: nat -> nat, pos: nat)
    requires |itens| > 0 && |meal| > 0 && ValidMeal(meal, |itens|)
    ensures |RepairStep(itens, meal, s, pos).0| == |meal|
    ensures ValidMeal(RepairStep(itens, meal, s, pos).0, |itens|)
    ensures PortionsInRange(meal) ==> PortionsInRange(RepairStep(itens, meal, s, pos).0)
  {
    if !HasProt(itens, meal) {
      ReplaceShape(itens, meal, ProtIds(itens), s, pos);
      var a := Replace(itens, meal, ProtIds(itens), s, pos);
      if !HasCarb(itens, meal) {
        ReplaceShape(itens, a.0, CarbIds(itens), s, a.1);
      }
    } else if !HasCarb(itens, meal) {
      ReplaceShape(itens, meal, CarbIds(itens), s, pos);
    }
  }

  /** A meal that already holds a high-protein and a carbohydrate-base gene is
      not repaired and no draw is consumed. */
  lemma RepairKeepsCompleteMeal(itens: seq<FoodItem>, meal: seq<Gene>, s: nat -> nat, pos: nat)
    requires |itens| > 0 && |meal| > 0 && ValidMeal(meal, |itens|)
    requires HasProt(itens, meal) && HasCarb(itens, meal)
    ensures RepairStep(itens, meal, s, pos) == (meal, pos)
  {
  }

  /** Mutation keeps the number of genes of a meal, keeps every gene naming a
      catalogue item, and keeps portions in the clamp's range. */
  lemma MutateMealShape(itens: seq<FoodItem>, meal: seq<Gene>, s: nat -> nat, pos: nat)
    requires |itens| > 0 && |meal| > 0 && ValidMeal(meal, |itens|)
    ensures |MutateMeal(itens, meal, s, pos).0| == |meal|
    ensures ValidMeal(MutateMeal(itens, meal, s, pos).0, |itens|)
    ensures PortionsInRange(meal) ==> PortionsInRange(MutateMeal(itens, meal, s, pos).0)
  {
    SwapStepShape(|itens|, meal, s, pos);
    var a := SwapStep(|itens|, meal, s, pos);
    PortionStepShape(itens, a.0, s, a.1);
    var b := PortionStep(itens, a.0, s, a.1);
    RepairStepShape(itens, b.0, s, b.1);
  }

  // ---------------------------------------------------------------------------
  // Mutation in place
  // ---------------------------------------------------------------------------

  method SwapInPlace(n: nat, meal: Meal, rng: Rng)
    requires meal.Length > 0
    modifies meal, rng
    ensures (meal[..], rng.pos) == SwapStep(n, old(meal[..]), rng.stream, old(rng.pos))
  {
    var u := rng.NextUnit();
    if u < 0.25 && n > 0 {
      var i := rng.NextBelow(meal.Length);
      var k := rng.NextBelow(n);
      meal[i] := Gene(k, meal[i].portion);
    }
  }

  method PortionInPlace(itens: seq<FoodItem>, meal: Meal, rng: Rng)
    requires meal.Length > 0 && ValidMeal(meal[..], |itens|)
    modifies meal, rng
    ensures (meal[..], rng.pos) == PortionStep(itens, old(meal[..]), rng.stream, old(rng.pos))
  {
    var u := rng.NextUnit();
    if u < 0.40 {
      var j := rng.NextBelow(meal.Length);
      var c := rng.NextBelow(2);
      var delta := [-20, 20][c];
      var g := meal[j];
      meal[j] := Gene(g.idx, SafePortion(itens[g.idx], g.portion + delta));
    }
  }

  method ReplaceInPlace(itens: seq<FoodItem>, meal: Meal, ids: seq<int>, rng: Rng)
    requires meal.Length > 0 && ids != []
    requires forall i :: i in ids ==> 0 <= i < |itens|
    modifies meal, rng
    ensures (meal[..], rng.pos) == Replace(itens, old(meal[..]), ids, rng.stream, old(rng.pos))
  {
    var j := rng.NextBelow(meal.Length);
    var c := rng.NextBelow(|ids|);
    var idx := ids[c];
    assert idx in ids;
    meal[j] := Gene(idx, SafePortion(itens[idx], meal[j].portion));
  }

  method RepairInPlace(itens: seq<FoodItem>, meal: Meal, rng: Rng)
    requires |itens| > 0 && meal.Length > 0 && ValidMeal(meal[..], |itens|)
    modifies meal, rng
    ensures (meal[..], rng.pos) == RepairStep(itens, old(meal[..]), rng.stream, old(rng.pos))
  {
    var hasProt := HasProt(itens, meal[..]);
    var hasCarb := HasCarb(itens, meal[..]);
    if !hasProt {
      ReplaceInPlace(itens, meal, ProtIds(itens), rng);
    }
    if !hasCarb {
      ReplaceInPlace(itens, meal, CarbIds(itens), rng);
    }
  }

  /** `_mutar`'s loop body on one meal array. */
  method MutateMealInPlace(itens: seq<FoodItem>, meal: Meal, rng: Rng)
    requires |itens| > 0 && meal.Length > 0 && ValidMeal(meal[..], |itens|)
    modifies meal, rng
    ensures (meal[..], rng.pos) == MutateMeal(itens, old(meal[..]), rng.stream, old(rng.pos))
  {
    SwapInPlace(|itens|, meal, rng);
    SwapStepShape(|itens|, old(meal[..]), rng.stream, old(rng.pos));
    PortionInPlace(itens, meal, rng);
    RepairInPlace(itens, meal, rng);
  }

  // ---------------------------------------------------------------------------
  // Mutation of an individual
  // ---------------------------------------------------------------------------

  predicate MealsMutable(itens: seq<FoodItem>, menu: seq<seq<Gene>>) {
    forall k :: 0 <= k < |menu| ==> |menu[k]| > 0 && ValidMeal(menu[k], |itens|)
  }

  /** `_mutar` on meals that are separate lists: each meal in turn, the draws
      threaded from one to the next. */
  function MutateAll(itens: seq<FoodItem>, menu: seq<seq<Gene>>, s: nat -> nat, pos: nat): (r: (seq<seq<Gene>>, nat))
    requires |itens| > 0 && MealsMutable(itens, menu)
    ensures |r.0| == |menu|
    ensures MealsMutable(itens, r.0)
    ensures forall k :: 0 <= k < |menu| ==> |r.0[k]| == |menu[k]|
    ensures (forall k :: 0 <= k < |menu| ==> PortionsInRange(menu[k])) ==>
      forall k :: 0 <= k < |menu| ==> PortionsInRange(r.0[k])
  {
    if menu == [] then ([], pos)
    else
      var init := menu[..|menu| - 1];
      var a := MutateAll(itens, init, s, pos);
      MutateMealShape(itens, menu[|menu| - 1], s, a.1);
      var m := MutateMeal(itens, menu[|menu| - 1], s, a.1);
      (a.0 + [m.0], m.1)
  }

  /** Mutating one more meal extends the result by that meal's mutation. */
  lemma MutateAllSnoc(itens: seq<FoodItem>, menu: seq<seq<Gene>>, m: nat, s: nat -> nat, pos: nat)
    requires |itens| > 0 && MealsMutable(itens, menu) && m < |menu|
    ensures MealsMutable(itens, menu[..m]) && MealsMutable(itens, menu[..m + 1])
    ensures MutateAll(itens, menu[..m + 1], s, pos) ==
      var a := MutateAll(itens, menu[..m], s, pos);
      var b := MutateMeal(itens, menu[m], s, a.1);
      (a.0 + [b.0], b.1)
  {
    assert menu[..m + 1][..m] == menu[..m];
  }

  /** The meals of an individual, read from the heap, can be mutated. */
  predicate Mutable(itens: seq<FoodItem>, ind: Individual)
    reads ind
  {
    forall k :: 0 <= k < |ind| ==> ind[k].Length > 0 && ValidMeal(ind[k][..], |itens|)
  }

  predicate InRange(ind: Individual)
    reads ind
  {
    forall k :: 0 <= k < |ind| ==> PortionsInRange(ind[k][..])
  }

  /** One pass of `_mutar`'s loop: the meal at position `m` is mutated, and so
      is every other position holding the same array; the rest is untouched. */
  method MutateAt(itens: seq<FoodItem>, ind: Individual, m: nat, rng: Rng)
    requires |itens| > 0 && m < |ind| && Mutable(itens, ind)
    modifies ind[m], rng
    ensures Mutable(itens, ind)
    ensures old(InRange(ind)) ==> InRange(ind)
    ensures forall k :: 0 <= k < |ind| && ind[k] != ind[m] ==> ind[k][..] == old(ind[k][..])
    ensures (ind[m][..], rng.pos) == MutateMeal(itens, old(ind[m][..]), rng.stream, old(rng.pos))
  {
    MutateMealShape(itens, ind[m][..], rng.stream, rng.pos);
    MutateMealInPlace(itens, ind[m], rng);
  }

  /** After `m` passes of `_mutar`'s loop over distinct meal arrays, the first
      `m` meals hold their mutations, the others their original genes, and the
      generator has advanced past the draws of the first `m`. */
  ghost predicate MutatedPrefix(itens: seq<FoodItem>, now: seq<seq<Gene>>, m: nat, before: seq<seq<Gene>>,
                                s: nat -> nat, p0: nat, pos: nat)
    requires |itens| > 0 && MealsMutable(itens, before) && m <= |before| == |now|
  {
    var r := MutateAll(itens, before[..m], s, p0);
    && pos == r.1
    && (forall k :: 0 <= k < m ==> now[k] == r.0[k])
    && (forall k :: m <= k < |now| ==> now[k] == before[k])
  }

  ghost predicate MutatedUpTo(itens: seq<FoodItem>, ind: Individual, m: nat, before: seq<seq<Gene>>,
                              s: nat -> nat, p0: nat, pos: nat)
    requires |itens| > 0 && MealsMutable(itens, before) && m <= |before| == |ind|
    reads ind
  {
    MutatedPrefix(itens, Contents(ind), m, before, s, p0, pos)
  }

  /** Mutating meal `m`, and nothing else, extends the mutated prefix by one. */
  lemma MutatedPrefixStep(itens: seq<FoodItem>, pre: seq<seq<Gene>>, post: seq<seq<Gene>>, m: nat,
                          before: seq<seq<Gene>>, s: nat -> nat, p0: nat, pos: nat, pos': nat)
    requires |itens| > 0 && MealsMutable(itens, before) && m < |before| == |pre| == |post|
    requires MutatedPrefix(itens, pre, m, before, s, p0, pos)
    requires forall k :: 0 <= k < |pre| && k != m ==> post[k] == pre[k]
    requires (post[m], pos') == MutateMeal(itens, pre[m], s, pos)
    ensures MutatedPrefix(itens, post, m + 1, before, s, p0, pos')
  {
    MutateAllSnoc(itens, before, m, s, p0);
  }

  /** Once every meal has been passed, the meals are `MutateAll`'s result. */
  lemma MutatedPrefixAll(itens: seq<FoodItem>, now: seq<seq<Gene>>, before: seq<seq<Gene>>,
                         s: nat -> nat, p0: nat, pos: nat)
    requires |itens| > 0 && MealsMutable(itens, before) && |before| == |now|
    requires MutatedPrefix(itens, now, |before|, before, s, p0, pos)
    ensures (now, pos) == MutateAll(itens, before, s, p0)
  {
    assert before[..|before|] == before;
    var r := MutateAll(itens, before, s, p0);
    assert forall k :: 0 <= k < |now| ==> now[k] == r.0[k];
    assert now == r.0;
  }

  /** One pass of the loop, with the loop's invariant before and after. */
  method MutateStep(itens: seq<FoodItem>, ind: Individual, m: nat, rng: Rng,
                    ghost before: seq<seq<Gene>>, ghost p0: nat, ghost wasInRange: bool)
    requires |itens| > 0 && m < |ind| && Mutable(itens, ind)
    requires MealsMutable(itens, before) && |before| == |ind|
    requires wasInRange ==> InRange(ind)
    requires Distinct(ind) ==> MutatedUpTo(itens, ind, m, before, rng.stream, p0, rng.pos)
    modifies ind[m], rng
    ensures Mutable(itens, ind)
    ensures wasInRange ==> InRange(ind)
    ensures Distinct(ind) ==> MutatedUpTo(itens, ind, m + 1, before, rng.stream, p0, rng.pos)
  {
    ghost var pre := Contents(ind);
    ghost var pos := rng.pos;
    MutateAt(itens, ind, m, rng);
    ghost var post := Contents(ind);
    if Distinct(ind) {
      assert forall k :: 0 <= k < |pre| && k != m ==> ind[k] != ind[m];
      MutatedPrefixStep(itens, pre, post, m, before, rng.stream, p0, pos, rng.pos);
    }
  }

  /** `_mutar(ind, itens_idx=..., contexto=ctx)`: every meal array of the
      individual is edited in place, in order.  A meal array that occurs twice
      in the individual is edited once per occurrence, as in the source; when
      the meals are distinct arrays the result is `MutateAll`. */
  method Mutate(itens: seq<FoodItem>, ind: Individual, rng: Rng)
    requires |itens| > 0 && Mutable(itens, ind)
    modifies ind, rng
    ensures Mutable(itens, ind)
    ensures old(InRange(ind)) ==> InRange(ind)
    ensures MealsMutable(itens, old(Contents(ind)))
    ensures Distinct(ind) ==> (Contents(ind), rng.pos) == MutateAll(itens, old(Contents(ind)), rng.stream, old(rng.pos))
  {
    ghost var before := Contents(ind);
    ghost var wasInRange := InRange(ind);
    ghost var p0 := rng.pos;
    ghost var distinct := Distinct(ind);
    assert MealsMutable(itens, before);
    var m := 0;
    while m < |ind|
      invariant 0 <= m <= |ind|
      invariant Mutable(itens, ind)
      invariant wasInRange ==> InRange(ind)
      invariant distinct ==> MutatedUpTo(itens, ind, m, before, rng.stream, p0, rng.pos)
    {
      MutateStep(itens, ind, m, rng, before, p0, wasInRange);
      m := m + 1;
    }
    if distinct {
      MutatedPrefixAll(itens, Contents(ind), before, rng.stream, p0, rng.pos);
    }
  }
}
