/** `_criar_individuo` (assets/genetic_module/genetic_module.py:378-446): the
    food pools, drawn from the least caloric part of the catalogue, and the
    random meals built from them.  The optimiser passes
    `itens_idx = range(len(itens))`, so a catalogue position is also the
    gene's index (`itens_idx.index(i) == i`). */
module Creation {
  import opened Common
  import opened Foods
  import opened Menu
  import opened Random
  import opened Sorting

  /** `itens[i].kcal_100g`, for a position of the catalogue. */
  function Kcal(itens: seq<FoodItem>, i: int): real {
    if 0 <= i < |itens| then itens[i].kcal else 0.0
  }

  /** `key=lambda i: itens[i].kcal_100g`. */
  function KcalKey(itens: seq<FoodItem>): int -> real {
    i => Kcal(itens, i)
  }

  /** The catalogue positions in ascending kcal, stable. */
  function ByKcal(itens: seq<FoodItem>): (r: seq<int>)
    ensures |r| == |itens|
    ensures forall x :: x in r ==> 0 <= x < |itens|
    ensures forall a, b :: 0 <= a < b < |r| ==> Kcal(itens, r[a]) <= Kcal(itens, r[b])
  {
    var r := SortBy(Range(|itens|), KcalKey(itens));
    assert SortedBy(r, KcalKey(itens));
    forall x | x in r
      ensures 0 <= x < |itens|
    {
      assert x in multiset(r);
      assert x in multiset(Range(|itens|));
    }
    r
  }

  /** `corte = max(1, int(len(idx_sorted) * low_kcal_bias))`. */
  function Cut(n: nat, bias: real): (c: int)
    ensures c >= 1
  {
    Max(1, Trunc(n as real * bias))
  }

  /** `idx_sorted[:corte] if corte < len(idx_sorted) else idx_sorted`. */
  function BasePool(itens: seq<FoodItem>, bias: real): seq<int> {
    var srt := ByKcal(itens);
    var c := Cut(|srt|, bias);
    if c < |srt| then srt[..c] else srt
  }

  /** `[i for i in base_pool if p(itens[i])] or base_pool[:]`. */
  function PoolWhere(itens: seq<FoodItem>, base: seq<int>, p: FoodItem -> bool): seq<int> {
    OrElse(Filter(base, i => 0 <= i < |itens| && p(itens[i])), base)
  }

  datatype Pools = Pools(carb: seq<int>, prot: seq<int>, neutral: seq<int>)

  function PoolsOf(itens: seq<FoodItem>, bias: real): Pools {
    var base := BasePool(itens, bias);
    Pools(PoolWhere(itens, base, IsCarbBase),
          PoolWhere(itens, base, IsHighProtein),
          PoolWhere(itens, base, it => !IsHighFat(it)))
  }

  /** Every entry of `pool` is a position of a catalogue of `n` items. */
  predicate AllBelow(pool: seq<int>, n: nat) {
    forall i :: i in pool ==> 0 <= i < n
  }

  /** Pools `random.choice` can draw catalogue positions from. */
  predicate PoolsUsable(itens: seq<FoodItem>, ps: Pools) {
    && ps.carb != [] && ps.prot != [] && ps.neutral != []
    && AllBelow(ps.carb, |itens|) && AllBelow(ps.prot, |itens|) && AllBelow(ps.neutral, |itens|)
  }

  // ---------------------------------------------------------------------------
  // Facts about the pools
  // ---------------------------------------------------------------------------

  /** The base pool is the `min(corte, n)` least caloric positions: a prefix of
      the kcal order, and no item outside it has fewer kcal than one inside. */
  lemma BasePoolIsLeastCaloric(itens: seq<FoodItem>, bias: real)
    requires |itens| > 0
    ensures |BasePool(itens, bias)| == Min(Cut(|itens|, bias), |itens|)
    ensures BasePool(itens, bias) == ByKcal(itens)[..|BasePool(itens, bias)|]
    ensures forall a, b :: 0 <= a < |BasePool(itens, bias)| <= b < |itens| ==>
      Kcal(itens, BasePool(itens, bias)[a]) <= Kcal(itens, ByKcal(itens)[b])
  {
    var srt := ByKcal(itens);
    var base := BasePool(itens, bias);
    assert base == srt[..|base|];
    forall a, b | 0 <= a < |base| <= b < |itens|
      ensures Kcal(itens, base[a]) <= Kcal(itens, srt[b])
    {
      assert base[a] == srt[a];
    }
  }

  /** A pool holds exactly the base items with the property when there is one,
      and the whole base pool otherwise. */
  lemma PoolWhereMeaning(itens: seq<FoodItem>, base: seq<int>, p: FoodItem -> bool)
    requires forall i :: i in base ==> 0 <= i < |itens|
    ensures (exists i :: i in base && p(itens[i])) ==>
      forall i :: i in PoolWhere(itens, base, p) <==> i in base && p(itens[i])
    ensures (forall i :: i in base ==> !p(itens[i])) ==> PoolWhere(itens, base, p) == base
  {
    var f := Filter(base, i => 0 <= i < |itens| && p(itens[i]));
    if exists i :: i in base && p(itens[i]) {
      var i :| i in base && p(itens[i]);
      var k :| 0 <= k < |base| && base[k] == i;
      assert base[k] in f;
      forall j
        ensures j in f <==> j in base && p(itens[j])
      {
        if j in f {
          var q :| 0 <= q < |f| && f[q] == j;
        }
        if j in base && p(itens[j]) {
          var q :| 0 <= q < |base| && base[q] == j;
        }
      }
    }
  }

  /** A pool drawn from a non-empty base pool is non-empty and stays inside it. */
  lemma PoolWhereUsable(itens: seq<FoodItem>, base: seq<int>, p: FoodItem -> bool)
    requires base != [] && AllBelow(base, |itens|)
    ensures PoolWhere(itens, base, p) != [] && AllBelow(PoolWhere(itens, base, p), |itens|)
  {
    var f := Filter(base, i => 0 <= i < |itens| && p(itens[i]));
    forall x | x in f
      ensures 0 <= x < |itens|
    {
      var q :| 0 <= q < |f| && f[q] == x;
    }
  }

  lemma PoolsOfUsable(itens: seq<FoodItem>, bias: real)
    requires |itens| > 0
    ensures PoolsUsable(itens, PoolsOf(itens, bias))
  {
    var base := BasePool(itens, bias);
    BasePoolIsLeastCaloric(itens, bias);
    assert base != [];
    assert forall i :: i in base ==> i in ByKcal(itens);
    PoolWhereUsable(itens, base, IsCarbBase);
    PoolWhereUsable(itens, base, IsHighProtein);
    PoolWhereUsable(itens, base, it => !IsHighFat(it));
  }

  // ---------------------------------------------------------------------------
  // The random meals
  // ---------------------------------------------------------------------------

  const CarbPortions: seq<int> := [120, 150, 180, 200]
  const ProtPortions: seq<int> := [70, 90, 110, 130]
  const ExtraPortions: seq<int> := [60, 80, 100]

  /** The portion clamp the construction applies to every drawn portion.
      `CreateIndividual` uses `SafePortion`; the draws below are stated for
      any clamp into [20, 250], so that proofs about the draw order need not
      look inside the clamp. */
  type Clamp = (FoodItem, int) -> int

  ghost predicate ClampsPortions(clamp: Clamp) {
    forall it, por :: 20 <= clamp(it, por) <= 250
  }

  lemma SafePortionClamps()
    ensures ClampsPortions(SafePortion)
  {
  }

  /** A gene for an item of `pool` with a listed portion, clamped. */
  function DrawGene(itens: seq<FoodItem>, clamp: Clamp, pool: seq<int>, portions: seq<int>, s: nat -> nat, pos: nat): (g: Gene)
    requires pool != [] && portions != [] && AllBelow(pool, |itens|)
    ensures g.idx in pool
  {
    var idx := pool[Below(s, pos, |pool|)];
    assert idx in pool;
    Gene(idx, clamp(itens[idx], portions[Below(s, pos + 1, |portions|)]))
  }

  /** One meal: `randint(2, 3)` genes, a carbohydrate base, a protein and,
      for three, a neutral extra; each item draw is followed by its portion
      draw. */
  function MealDraw(itens: seq<FoodItem>, clamp: Clamp, ps: Pools, s: nat -> nat, pos: nat): (r: (seq<Gene>, nat))
    requires PoolsUsable(itens, ps)
    ensures 2 <= |r.0| <= 3
  {
    var n := 2 + Below(s, pos, 2);
    var c := DrawGene(itens, clamp, ps.carb, CarbPortions, s, pos + 1);
    var p := DrawGene(itens, clamp, ps.prot, ProtPortions, s, pos + 3);
    if n > 2 then ([c, p, DrawGene(itens, clamp, ps.neutral, ExtraPortions, s, pos + 5)], pos + 7)
    else ([c, p], pos + 5)
  }

  /** Each meal has two or three genes: first from the carbohydrate pool, then
      from the protein pool, then from the neutral pool; every gene names a
      catalogue item and carries a clamped portion. */
  lemma MealDrawShape(itens: seq<FoodItem>, clamp: Clamp, ps: Pools, s: nat -> nat, pos: nat)
    requires PoolsUsable(itens, ps) && ClampsPortions(clamp)
    ensures var m := MealDraw(itens, clamp, ps, s, pos).0;
      && 2 <= |m| <= 3
      && m[0].idx in ps.carb && m[1].idx in ps.prot && (|m| == 3 ==> m[2].idx in ps.neutral)
      && ValidMeal(m, |itens|) && PortionsInRange(m)
  {
  }

  /** The portions are the listed ones, clamped by `SafePortion` for their item. */
  lemma MealDrawPortions(itens: seq<FoodItem>, ps: Pools, s: nat -> nat, pos: nat)
    requires PoolsUsable(itens, ps)
    ensures var m := MealDraw(itens, SafePortion, ps, s, pos).0;
      && (exists q :: q in CarbPortions && m[0].portion == SafePortion(itens[m[0].idx], q))
      && (exists q :: q in ProtPortions && m[1].portion == SafePortion(itens[m[1].idx], q))
      && (|m| == 3 ==> exists q :: q in ExtraPortions && m[2].portion == SafePortion(itens[m[2].idx], q))
  {
    var m := MealDraw(itens, SafePortion, ps, s, pos).0;
    assert CarbPortions[Below(s, pos + 2, 4)] in CarbPortions;
    assert ProtPortions[Below(s, pos + 4, 4)] in ProtPortions;
    if |m| == 3 {
      assert ExtraPortions[Below(s, pos + 6, 3)] in ExtraPortions;
    }
  }

  /** A new meal's first gene is a carbohydrate base and its second a
      high-protein item whenever the least caloric part of the catalogue holds
      one. */
  lemma MealDrawPrefersClasses(itens: seq<FoodItem>, bias: real, s: nat -> nat, pos: nat)
    requires |itens| > 0
    ensures PoolsUsable(itens, PoolsOf(itens, bias))
    ensures var m := MealDraw(itens, SafePortion, PoolsOf(itens, bias), s, pos).0;
      && ((exists i :: i in BasePool(itens, bias) && 0 <= i < |itens| && IsCarbBase(itens[i])) ==>
          0 <= m[0].idx < |itens| && IsCarbBase(itens[m[0].idx]))
      && ((exists i :: i in BasePool(itens, bias) && 0 <= i < |itens| && IsHighProtein(itens[i])) ==>
          0 <= m[1].idx < |itens| && IsHighProtein(itens[m[1].idx]))
  {
    PoolsOfUsable(itens, bias);
    var base := BasePool(itens, bias);
    assert forall i :: i in base ==> i in ByKcal(itens);
    PoolWhereMeaning(itens, base, IsCarbBase);
    PoolWhereMeaning(itens, base, IsHighProtein);
    MealDrawShape(itens, SafePortion, PoolsOf(itens, bias), s, pos);
  }

  /** `k` meals drawn one after another. */
  function IndividualDraw(itens: seq<FoodItem>, clamp: Clamp, ps: Pools, k: nat, s: nat -> nat, pos: nat): (r: (seq<seq<Gene>>, nat))
    requires PoolsUsable(itens, ps)
    ensures |r.0| == k
  {
    if k == 0 then ([], pos)
    else
      var a := IndividualDraw(itens, clamp, ps, k - 1, s, pos);
      var m := MealDraw(itens, clamp, ps, s, a.1);
      (a.0 + [m.0], m.1)
  }

  /** What `MealDrawShape` promises of one meal. */
  predicate WellFormedMeal(m: seq<Gene>, n: nat) {
    2 <= |m| <= 3 && ValidMeal(m, n) && PortionsInRange(m)
  }

  /** Every meal of a new individual has the shape `MealDrawShape` states. */
  lemma {:induction false} IndividualDrawShape(itens: seq<FoodItem>, clamp: Clamp, ps: Pools, k: nat, s: nat -> nat, pos: nat)
    requires PoolsUsable(itens, ps) && ClampsPortions(clamp)
    ensures forall j :: 0 <= j < k ==> WellFormedMeal(IndividualDraw(itens, clamp, ps, k, s, pos).0[j], |itens|)
  {
    if k > 0 {
      IndividualDrawShape(itens, clamp, ps, k - 1, s, pos);
      var a := IndividualDraw(itens, clamp, ps, k - 1, s, pos);
      MealDrawShape(itens, clamp, ps, s, a.1);
      var r := IndividualDraw(itens, clamp, ps, k, s, pos).0;
      assert r == a.0 + [MealDraw(itens, clamp, ps, s, a.1).0];
      assert forall j :: 0 <= j < k - 1 ==> r[j] == a.0[j];
    }
  }

  // ---------------------------------------------------------------------------
  // The imperative construction
  // ---------------------------------------------------------------------------

  method NextGene(itens: seq<FoodItem>, clamp: Clamp, pool: seq<int>, portions: seq<int>, rng: Rng) returns (g: Gene)
    requires pool != [] && portions != [] && AllBelow(pool, |itens|)
    modifies rng
    ensures g == DrawGene(itens, clamp, pool, portions, rng.stream, old(rng.pos)) && rng.pos == old(rng.pos) + 2
  {
    var c := rng.NextBelow(|pool|);
    var idx := pool[c];
    assert idx in pool;
    var q := rng.NextBelow(|portions|);
    g := Gene(idx, clamp(itens[idx], portions[q]));
  }

  method NewMeal(itens: seq<FoodItem>, clamp: Clamp, ps: Pools, rng: Rng) returns (meal: Meal)
    requires PoolsUsable(itens, ps)
    modifies rng
    ensures fresh(meal)
    ensures meal[..] == MealDraw(itens, clamp, ps, rng.stream, old(rng.pos)).0
    ensures rng.pos == MealDraw(itens, clamp, ps, rng.stream, old(rng.pos)).1
  {
    var d := rng.NextBelow(2);
    var n := 2 + d;
    var c := NextGene(itens, clamp, ps.carb, CarbPortions, rng);
    var p := NextGene(itens, clamp, ps.prot, ProtPortions, rng);
    if n > 2 {
      var e := NextGene(itens, clamp, ps.neutral, ExtraPortions, rng);
      meal := new Gene[] [c, p, e];
    } else {
      meal := new Gene[] [c, p];
    }
  }

  lemma IndividualDrawSnoc(itens: seq<FoodItem>, clamp: Clamp, ps: Pools, k: nat, s: nat -> nat, p0: nat)
    requires PoolsUsable(itens, ps)
    ensures var a := IndividualDraw(itens, clamp, ps, k, s, p0);
      IndividualDraw(itens, clamp, ps, k + 1, s, p0) == (a.0 + [MealDraw(itens, clamp, ps, s, a.1).0], MealDraw(itens, clamp, ps, s, a.1).1)
  {
  }

  /** The state of the meal loop after `|ind|` meals: distinct new lists
      holding the first `|ind|` draws. */
  ghost predicate Drawn(itens: seq<FoodItem>, clamp: Clamp, ps: Pools, ind: Individual, s: nat -> nat, p0: nat, pos: nat)
    requires PoolsUsable(itens, ps)
    reads ind
  {
    && Distinct(ind)
    && Contents(ind) == IndividualDraw(itens, clamp, ps, |ind|, s, p0).0
    && pos == IndividualDraw(itens, clamp, ps, |ind|, s, p0).1
  }

  /** One pass of the meal loop: a new meal list appended to the day. */
  method AddMeal(itens: seq<FoodItem>, clamp: Clamp, ps: Pools, ind: Individual, rng: Rng, ghost p0: nat) returns (ind2: Individual)
    requires PoolsUsable(itens, ps)
    requires Drawn(itens, clamp, ps, ind, rng.stream, p0, rng.pos)
    modifies rng
    ensures |ind2| == |ind| + 1 && ind2 == ind + [ind2[|ind|]] && fresh(ind2[|ind|])
    ensures Drawn(itens, clamp, ps, ind2, rng.stream, p0, rng.pos)
  {
    ghost var a := IndividualDraw(itens, clamp, ps, |ind|, rng.stream, p0);
    ghost var m := MealDraw(itens, clamp, ps, rng.stream, a.1);
    IndividualDrawSnoc(itens, clamp, ps, |ind|, rng.stream, p0);
    var meal := NewMeal(itens, clamp, ps, rng);
    ContentsSnoc(ind, meal);
    ind2 := ind + [meal];
    assert Contents(ind2) == a.0 + [m.0];
    assert Distinct(ind2);
  }

  /** The loop of `_criar_individuo`: `k` new meal lists, for any clamp. */
  method DrawMeals(itens: seq<FoodItem>, clamp: Clamp, ps: Pools, nRef: int, rng: Rng) returns (ind: Individual)
    requires PoolsUsable(itens, ps)
    modifies rng
    ensures forall k :: 0 <= k < |ind| ==> fresh(ind[k])
    ensures Distinct(ind)
    ensures (Contents(ind), rng.pos) == IndividualDraw(itens, clamp, ps, Max(0, nRef), rng.stream, old(rng.pos))
  {
    ghost var p0 := rng.pos;
    ind := [];
    assert Drawn(itens, clamp, ps, ind, rng.stream, p0, rng.pos) by {
      assert IndividualDraw(itens, clamp, ps, 0, rng.stream, p0) == ([], p0);
    }
    while |ind| < nRef
      invariant |ind| <= Max(0, nRef)
      invariant forall j :: 0 <= j < |ind| ==> fresh(ind[j])
      invariant Drawn(itens, clamp, ps, ind, rng.stream, p0, rng.pos)
    {
      ind := AddMeal(itens, clamp, ps, ind, rng, p0);
    }
    assert |ind| == Max(0, nRef);
  }

  /** `_criar_individuo(n_refeicoes, itens, itens_idx, 2, 3, low_kcal_bias)`:
      a new list of new meal lists, with portions clamped by `SafePortion`. */
  method CreateIndividual(itens: seq<FoodItem>, nRef: int, bias: real, rng: Rng) returns (ind: Individual)
    requires |itens| > 0
    modifies rng
    ensures PoolsUsable(itens, PoolsOf(itens, bias))
    ensures forall k :: 0 <= k < |ind| ==> fresh(ind[k])
    ensures Distinct(ind)
    ensures (Contents(ind), rng.pos) == IndividualDraw(itens, SafePortion, PoolsOf(itens, bias), Max(0, nRef), rng.stream, old(rng.pos))
  {
    PoolsOfUsable(itens, bias);
    var ps := PoolsOf(itens, bias);
    ind := DrawMeals(itens, SafePortion, ps, nRef, rng);
  }
}
