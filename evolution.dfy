/** The optimiser's driver `gerar_cardapio`
    (assets/genetic_module/genetic_module.py:597-753): an initial population of
    random individuals, `ger` generations of evaluation, ranking, elitism,
    tournament selection, crossover and in-place mutation, and a final pass
    that picks the best individual, scales it to the energy target, scores it
    again and reports its meals.

    Individuals share meal arrays (crossover copies only the outer list), so
    the model keeps every meal array ever created in a ghost map `slot` from
    the array to the position it was created at.  Crossover keeps positions,
    so an array only ever sits at its own position: no individual holds one
    array twice, and mutation acts on every meal exactly once. */
module Evolution {
  import opened Common
  import opened Foods
  import opened Menu
  import opened Params
  import opened Fitness
  import opened FitnessLaws
  import opened Random
  import opened Sorting
  import opened Operators
  import opened Creation
  import opened Scaling
  import opened Catalog

  // ---------------------------------------------------------------------------
  // Populations on the heap
  // ---------------------------------------------------------------------------

  /** Every individual has `n` meals. */
  predicate Shaped(pop: seq<Individual>, n: int) {
    forall i :: 0 <= i < |pop| ==> |pop[i]| == n
  }

  /** Every meal of the individual is a known array and sits at its own position. */
  predicate Placed(ind: Individual, slot: map<Meal, int>) {
    forall k :: 0 <= k < |ind| ==> ind[k] in slot && slot[ind[k]] == k
  }

  predicate AllPlaced(pop: seq<Individual>, slot: map<Meal, int>) {
    forall i :: 0 <= i < |pop| ==> Placed(pop[i], slot)
  }

  /** Every known meal array has two or three genes naming catalogue items. */
  predicate ValidMeals(itens: seq<FoodItem>, ms: set<Meal>)
    reads ms
  {
    forall m :: m in ms ==> 2 <= m.Length <= 3 && ValidMeal(m[..], |itens|)
  }

  /** The population invariant of the optimiser: `n` meals per individual,
      every meal array placed, every known array valid. */
  predicate WellPlaced(itens: seq<FoodItem>, pop: seq<Individual>, n: int, slot: map<Meal, int>)
    reads slot.Keys
  {
    Shaped(pop, n) && AllPlaced(pop, slot) && ValidMeals(itens, slot.Keys)
  }

  /** A placed individual never holds one array twice, and can be scored and mutated. */
  lemma PlacedIsUsable(itens: seq<FoodItem>, ind: Individual, slot: map<Meal, int>)
    requires Placed(ind, slot) && ValidMeals(itens, slot.Keys)
    ensures Distinct(ind) && Mutable(itens, ind) && ValidMenu(Contents(ind), |itens|)
  {
    forall i, j | 0 <= i < j < |ind|
      ensures ind[i] != ind[j]
    {
      assert slot[ind[i]] == i && slot[ind[j]] == j;
    }
    forall k | 0 <= k < |ind|
      ensures ind[k].Length > 0 && ValidMeal(ind[k][..], |itens|)
    {
      assert ind[k] in slot.Keys;
    }
  }

  // ---------------------------------------------------------------------------
  // Evaluation of a population
  // ---------------------------------------------------------------------------

  /** One entry of `avals`: an individual and the tuple `_avalia_cardapio`
      returns for it. */
  datatype Scored = Scored(ind: Individual, e: Eval)

  /** `key=lambda x: x[1]`. */
  function JKey(a: Scored): real {
    a.e.j
  }

  /** The genes of every individual, read from the heap. */
  function Population(pop: seq<Individual>, slot: map<Meal, int>): (r: seq<seq<seq<Gene>>>)
    requires AllPlaced(pop, slot)
    reads slot.Keys
    ensures |r| == |pop|
    ensures forall i :: 0 <= i < |pop| ==> r[i] == Contents(pop[i])
  {
    seq(|pop|, i reads slot.Keys requires 0 <= i < |pop| && AllPlaced(pop, slot) => Contents(pop[i]))
  }

  /** Every individual of a placed population can be scored. */
  lemma PopulationValid(itens: seq<FoodItem>, pop: seq<Individual>, slot: map<Meal, int>)
    requires AllPlaced(pop, slot) && ValidMeals(itens, slot.Keys)
    ensures forall i :: 0 <= i < |pop| ==> ValidMenu(Population(pop, slot)[i], |itens|)
  {
    forall i | 0 <= i < |pop|
      ensures ValidMenu(Population(pop, slot)[i], |itens|)
    {
      PlacedIsUsable(itens, pop[i], slot);
    }
  }

  /** `[(ind, *avaliar(ind)) for ind in pop]`, on the genes `menus` the
      individuals hold. */
  function ScoresOf(itens: seq<FoodItem>, t: Targets, cfg: Config, pop: seq<Individual>, menus: seq<seq<seq<Gene>>>): (r: seq<Scored>)
    requires |pop| == |menus| && forall i :: 0 <= i < |menus| ==> ValidMenu(menus[i], |itens|)
    ensures |r| == |pop|
    ensures forall i :: 0 <= i < |pop| ==> r[i] == Scored(pop[i], Evaluate(itens, t, cfg, menus[i]))
  {
    seq(|pop|, i requires 0 <= i < |pop| => Scored(pop[i], Evaluate(itens, t, cfg, menus[i])))
  }

  /** The scores of the population as it is on the heap. */
  function Scores(itens: seq<FoodItem>, t: Targets, cfg: Config, pop: seq<Individual>, slot: map<Meal, int>): (r: seq<Scored>)
    requires AllPlaced(pop, slot) && ValidMeals(itens, slot.Keys)
    reads slot.Keys
    ensures |r| == |pop|
  {
    PopulationValid(itens, pop, slot);
    ScoresOf(itens, t, cfg, pop, Population(pop, slot))
  }

  /** The i-th entry scores the i-th individual. */
  lemma ScoresAt(itens: seq<FoodItem>, t: Targets, cfg: Config, pop: seq<Individual>, slot: map<Meal, int>, i: int)
    requires AllPlaced(pop, slot) && ValidMeals(itens, slot.Keys) && 0 <= i < |pop|
    ensures ValidMenu(Contents(pop[i]), |itens|)
    ensures Scores(itens, t, cfg, pop, slot)[i] == Scored(pop[i], Evaluate(itens, t, cfg, Contents(pop[i])))
  {
    PopulationValid(itens, pop, slot);
  }

  /** `avals` scores the first `|avals|` individuals, whose genes are `menus`. */
  predicate ScoredPrefix(itens: seq<FoodItem>, t: Targets, cfg: Config, pop: seq<Individual>, menus: seq<seq<seq<Gene>>>, avals: seq<Scored>) {
    && |avals| <= |pop| == |menus|
    && forall j :: 0 <= j < |avals| ==>
         ValidMenu(menus[j], |itens|) && avals[j] == Scored(pop[j], Evaluate(itens, t, cfg, menus[j]))
  }

  lemma ScoredPrefixSnoc(itens: seq<FoodItem>, t: Targets, cfg: Config, pop: seq<Individual>, menus: seq<seq<seq<Gene>>>,
                         avals: seq<Scored>, a: Scored)
    requires ScoredPrefix(itens, t, cfg, pop, menus, avals) && |avals| < |pop|
    requires ValidMenu(menus[|avals|], |itens|)
    requires a == Scored(pop[|avals|], Evaluate(itens, t, cfg, menus[|avals|]))
    ensures ScoredPrefix(itens, t, cfg, pop, menus, avals + [a])
  {
  }

  /** A list scoring each individual in turn is the population's scores. */
  lemma ScoresByEntry(itens: seq<FoodItem>, t: Targets, cfg: Config, pop: seq<Individual>, slot: map<Meal, int>, avals: seq<Scored>)
    requires AllPlaced(pop, slot) && ValidMeals(itens, slot.Keys) && |avals| == |pop|
    requires ScoredPrefix(itens, t, cfg, pop, Population(pop, slot), avals)
    ensures avals == Scores(itens, t, cfg, pop, slot)
  {
    PopulationValid(itens, pop, slot);
  }

  /** `(ind, *avaliar(ind))`. */
  method Avaliar(itens: seq<FoodItem>, t: Targets, cfg: Config, ind: Individual) returns (a: Scored)
    requires ValidMenu(Contents(ind), |itens|)
    ensures a == Scored(ind, Evaluate(itens, t, cfg, Contents(ind)))
  {
    var e := EvaluateMenu(itens, t, cfg, Contents(ind));
    a := Scored(ind, e);
  }

  method EvaluatePopulation(itens: seq<FoodItem>, t: Targets, cfg: Config, pop: seq<Individual>, ghost slot: map<Meal, int>)
    returns (avals: seq<Scored>)
    requires AllPlaced(pop, slot) && ValidMeals(itens, slot.Keys)
    ensures avals == Scores(itens, t, cfg, pop, slot)
  {
    PopulationValid(itens, pop, slot);
    ghost var menus := Population(pop, slot);
    avals := [];
    var i := 0;
    while i < |pop|
      invariant i == |avals| && ScoredPrefix(itens, t, cfg, pop, menus, avals)
    {
      var a := Avaliar(itens, t, cfg, pop[i]);
      ScoredPrefixSnoc(itens, t, cfg, pop, menus, avals, a);
      avals := avals + [a];
      i := i + 1;
    }
    ScoresByEntry(itens, t, cfg, pop, slot, avals);
  }

  /** After ranking, every entry scores an individual of the population. */
  lemma RankedFromPopulation(itens: seq<FoodItem>, t: Targets, cfg: Config, pop: seq<Individual>, slot: map<Meal, int>, n: int)
    requires WellPlaced(itens, pop, n, slot)
    ensures Breedable(SortBy(Scores(itens, t, cfg, pop, slot), JKey), n, slot)
  {
    var sc := Scores(itens, t, cfg, pop, slot);
    SortByMembers(sc, JKey);
    forall a | a in sc
      ensures |a.ind| == n && Placed(a.ind, slot)
    {
      var i :| 0 <= i < |sc| && sc[i] == a;
      ScoresAt(itens, t, cfg, pop, slot, i);
    }
  }

  // ---------------------------------------------------------------------------
  // The initial population
  // ---------------------------------------------------------------------------

  /** The genes of `count` individuals drawn one after another, and where the
      stream stands afterwards. */
  function PopulationDraw(itens: seq<FoodItem>, ps: Pools, n: nat, count: nat, s: nat -> nat, pos: nat): (r: (seq<seq<seq<Gene>>>, nat))
    requires PoolsUsable(itens, ps)
    ensures |r.0| == count
  {
    if count == 0 then ([], pos)
    else
      var a := PopulationDraw(itens, ps, n, count - 1, s, pos);
      var d := IndividualDraw(itens, SafePortion, ps, n, s, a.1);
      (a.0 + [d.0], d.1)
  }

  /** `menus` are the first individuals drawn from position `p0`, and the
      stream now stands at `pos`. */
  ghost predicate Drawn(itens: seq<FoodItem>, ps: Pools, n: nat, menus: seq<seq<seq<Gene>>>, s: nat -> nat, p0: nat, pos: nat) {
    PoolsUsable(itens, ps) && (menus, pos) == PopulationDraw(itens, ps, n, |menus|, s, p0)
  }

  lemma DrawnSnoc(itens: seq<FoodItem>, ps: Pools, n: nat, menus: seq<seq<seq<Gene>>>, s: nat -> nat, p0: nat, pos: nat,
                  m: seq<seq<Gene>>, pos': nat)
    requires Drawn(itens, ps, n, menus, s, p0, pos)
    requires (m, pos') == IndividualDraw(itens, SafePortion, ps, n, s, pos)
    ensures Drawn(itens, ps, n, menus + [m], s, p0, pos')
  {
  }

  /** `_criar_individuo(...)`, with the shape of its meals. */
  method NextIndividual(itens: seq<FoodItem>, nRef: int, bias: real, rng: Rng, ghost ps: Pools) returns (ind: Individual)
    requires |itens| > 0 && ps == PoolsOf(itens, bias) && PoolsUsable(itens, ps)
    modifies rng
    ensures forall k :: 0 <= k < |ind| ==> fresh(ind[k])
    ensures Distinct(ind) && |ind| == Max(0, nRef)
    ensures forall k :: 0 <= k < |ind| ==> 2 <= ind[k].Length <= 3 && ValidMeal(ind[k][..], |itens|)
    ensures (Contents(ind), rng.pos) == IndividualDraw(itens, SafePortion, ps, Max(0, nRef), rng.stream, old(rng.pos))
  {
    ghost var q := rng.pos;
    ind := CreateIndividual(itens, nRef, bias, rng);
    SafePortionClamps();
    IndividualDrawShape(itens, SafePortion, ps, Max(0, nRef), rng.stream, q);
    forall k | 0 <= k < |ind|
      ensures 2 <= ind[k].Length <= 3 && ValidMeal(ind[k][..], |itens|)
    {
      assert WellFormedMeal(Contents(ind)[k], |itens|);
    }
  }

  /** The positions of a new individual's meal arrays. */
  function SlotsOf(ind: Individual): (r: map<Meal, int>)
    requires Distinct(ind)
    ensures Placed(ind, r)
    ensures forall m :: m in r ==> exists k :: 0 <= k < |ind| && m == ind[k]
  {
    map k | 0 <= k < |ind| :: ind[k] := k
  }

  /** Adding an individual of new, valid meal arrays keeps the population placed. */
  lemma AddIndividual(itens: seq<FoodItem>, pop: seq<Individual>, slot: map<Meal, int>, ind: Individual)
    requires WellPlaced(itens, pop, |ind|, slot) && Distinct(ind)
    requires forall k :: 0 <= k < |ind| ==> ind[k] !in slot && 2 <= ind[k].Length <= 3 && ValidMeal(ind[k][..], |itens|)
    ensures WellPlaced(itens, pop + [ind], |ind|, slot + SlotsOf(ind))
    ensures Population(pop + [ind], slot + SlotsOf(ind)) == Population(pop, slot) + [Contents(ind)]
  {
    var slot' := slot + SlotsOf(ind);
    forall i | 0 <= i < |pop|
      ensures Placed(pop[i], slot')
    {
      forall k | 0 <= k < |pop[i]|
        ensures pop[i][k] in slot' && slot'[pop[i][k]] == k
      {
        assert pop[i][k] in slot && pop[i][k] !in SlotsOf(ind);
      }
    }
    assert (pop + [ind])[|pop|] == ind;
    forall m | m in slot'.Keys
      ensures 2 <= m.Length <= 3 && ValidMeal(m[..], |itens|)
    {
      if m !in slot {
        var k :| 0 <= k < |ind| && m == ind[k];
      }
    }
    assert forall i :: 0 <= i < |pop| ==> (pop + [ind])[i] == pop[i];
  }

  /** One round of the list comprehension. */
  method AddNewIndividual(itens: seq<FoodItem>, nRef: int, bias: real, rng: Rng, ghost ps: Pools,
                          pop: seq<Individual>, ghost slot: map<Meal, int>, ghost p0: nat)
    returns (pop': seq<Individual>, ghost slot': map<Meal, int>)
    requires |itens| > 0 && ps == PoolsOf(itens, bias) && PoolsUsable(itens, ps)
    requires WellPlaced(itens, pop, Max(0, nRef), slot)
    requires Drawn(itens, ps, Max(0, nRef), Population(pop, slot), rng.stream, p0, rng.pos)
    modifies rng
    ensures |pop'| == |pop| + 1 && pop'[..|pop|] == pop
    ensures WellPlaced(itens, pop', Max(0, nRef), slot')
    ensures forall m :: m in slot' ==> m in slot || fresh(m)
    ensures Drawn(itens, ps, Max(0, nRef), Population(pop', slot'), rng.stream, p0, rng.pos)
  {
    ghost var q := rng.pos;
    ghost var before := Population(pop, slot);
    var ind := NextIndividual(itens, nRef, bias, rng, ps);
    assert Population(pop, slot) == before;
    DrawnSnoc(itens, ps, Max(0, nRef), before, rng.stream, p0, q, Contents(ind), rng.pos);
    assert forall k :: 0 <= k < |ind| ==> ind[k] !in slot;
    AddIndividual(itens, pop, slot, ind);
    slot' := slot + SlotsOf(ind);
    pop' := pop + [ind];
  }

  /** `[_criar_individuo(...) for _ in range(pop_size)]`: every meal array is
      new and known in `slot` at its position. */
  method InitialPopulation(itens: seq<FoodItem>, nRef: int, bias: real, popSize: int, rng: Rng)
    returns (pop: seq<Individual>, ghost slot: map<Meal, int>)
    requires |itens| > 0
    modifies rng
    ensures |pop| == Max(0, popSize) && WellPlaced(itens, pop, Max(0, nRef), slot)
    ensures forall m :: m in slot ==> fresh(m)
    ensures PoolsUsable(itens, PoolsOf(itens, bias))
    ensures (Population(pop, slot), rng.pos)
      == PopulationDraw(itens, PoolsOf(itens, bias), Max(0, nRef), Max(0, popSize), rng.stream, old(rng.pos))
  {
    PoolsOfUsable(itens, bias);
    ghost var ps := PoolsOf(itens, bias);
    ghost var n := Max(0, nRef);
    ghost var p0 := rng.pos;
    pop, slot := [], map[];
    var i := 0;
    while i < popSize
      invariant 0 <= i == |pop| <= Max(0, popSize)
      invariant WellPlaced(itens, pop, n, slot)
      invariant forall m :: m in slot ==> fresh(m)
      invariant Drawn(itens, ps, n, Population(pop, slot), rng.stream, p0, rng.pos)
    {
      pop, slot := AddNewIndividual(itens, nRef, bias, rng, ps, pop, slot, p0);
      i := i + 1;
    }
  }

  // ---------------------------------------------------------------------------
  // Selection and breeding
  // ---------------------------------------------------------------------------

  /** `torneio()`: three entries of `avals` drawn by `random.sample`; after the
      stable sort by J the first is the earliest drawn with the least J. */
  function TournamentPick(avals: seq<Scored>, s: nat -> nat, pos: nat): (w: Scored)
    requires |avals| >= 3
    ensures w in avals
  {
    FirstLeast(Sample(avals, 3, s, pos), JKey)
  }

  method Tournament(avals: seq<Scored>, rng: Rng) returns (w: Scored, ghost i: nat)
    requires |avals| >= 3
    modifies rng
    ensures w == TournamentPick(avals, rng.stream, old(rng.pos)) && rng.pos == old(rng.pos) + 3
    ensures i < |avals| && avals[i] == w
    ensures forall j :: 0 <= j < |avals| ==> Contents(avals[j].ind) == old(Contents(avals[j].ind))
  {
    var cand := rng.NextSample(avals, 3);
    EntriesKept(avals);
    SortByHead(cand, JKey);
    cand := SortBy(cand, JKey);
    w := cand[0];
    i :| i < |avals| && avals[i] == w;
  }

  /** Children of placed parents are placed: crossover keeps positions. */
  lemma CrossoverPlaced(p1: Individual, p2: Individual, s: nat -> nat, pos: nat, n: int, slot: map<Meal, int>)
    requires |p1| == n && |p2| == n && Placed(p1, slot) && Placed(p2, slot)
    ensures var c := Crossover(p1, p2, s, pos);
      |c.0| == n && |c.1| == n && Placed(c.0, slot) && Placed(c.1, slot)
  {
    CrossoverKeepsSlots(p1, p2, s, pos);
  }

  /** `after` and the stream position `p1` are what `MutateAll` makes of
      `before` from position `p0`. */
  ghost predicate MutatedFrom(itens: seq<FoodItem>, before: seq<seq<Gene>>, after: seq<seq<Gene>>, s: nat -> nat, p0: nat, p1: nat) {
    |itens| > 0 && MealsMutable(itens, before) && (after, p1) == MutateAll(itens, before, s, p0)
  }

  /** `_mutar(f, ...)` on a child whose meals are known arrays: the pool stays
      valid, and since a placed child never holds one array twice the genes
      it ends with are exactly `MutateAll` of those it started with. */
  method MutateChild(itens: seq<FoodItem>, f: Individual, rng: Rng, ghost slot: map<Meal, int>)
    requires |itens| > 0 && Placed(f, slot) && ValidMeals(itens, slot.Keys)
    modifies slot.Keys, rng
    ensures ValidMeals(itens, slot.Keys)
    ensures MutatedFrom(itens, old(Contents(f)), Contents(f), rng.stream, old(rng.pos), rng.pos)
    ensures forall m :: m in slot && m !in f ==> m[..] == old(m[..])
  {
    PlacedIsUsable(itens, f, slot);
    Mutate(itens, f, rng);
    forall m | m in slot.Keys
      ensures 2 <= m.Length <= 3 && ValidMeal(m[..], |itens|)
    {
      if m in f {
        var k :| 0 <= k < |f| && f[k] == m;
      }
    }
  }

  /** Everything the breeding loop may pick: the ranked entries, of placed
      individuals of `n` meals. */
  predicate Breedable(avals: seq<Scored>, n: int, slot: map<Meal, int>) {
    forall a :: a in avals ==> |a.ind| == n && Placed(a.ind, slot)
  }

  /** The failures of `gerar_cardapio`, by the exception the source raises. */
  datatype Failure =
    | MissingTable     // ValueError: no `tabela_csv`
    | EmptyTable       // RuntimeError: no usable food
    | EmptyPopulation  // IndexError: `avals[0]` or `final[0]` of an empty list
    | SampleTooLarge   // ValueError: `random.sample` of fewer than three entries

  /** One pass of the breeding loop: the two tournament winners and the
      genes their meal arrays hold when the pass starts, the children
      `_crossover` makes of their meal lists, the genes each child holds right
      before and right after its `_mutar`, and the stream positions where the
      pass starts, where the crossover draws, between the two mutations and
      where the pass ends. */
  datatype Pair = Pair(w1: Scored, w2: Scored, g1: seq<seq<Gene>>, g2: seq<seq<Gene>>,
                       c1: Individual, c2: Individual,
                       before1: seq<seq<Gene>>, after1: seq<seq<Gene>>,
                       before2: seq<seq<Gene>>, after2: seq<seq<Gene>>,
                       start: nat, cut: nat, mid: nat, end: nat)

  /** From the crossover on: the children are `_crossover` of the winners'
      meal lists drawn at `cut`, so the first starts with the same crossover
      of the winners' genes; it is mutated next, and the second after it,
      starting from that crossover too except in the meal arrays the two
      children share, which hold what the first mutation left in them. */
  ghost predicate Mated(itens: seq<FoodItem>, s: nat -> nat, pr: Pair) {
    var x := Crossover(pr.w1.ind, pr.w2.ind, s, pr.cut);
    var y := Crossover(pr.g1, pr.g2, s, pr.cut);
    && pr.c1 == x.0 && pr.c2 == x.1
    && pr.before1 == y.0 && |pr.before1| == |pr.c1| && |pr.before2| == |pr.c2| == |y.1|
    && MutatedFrom(itens, pr.before1, pr.after1, s, x.2, pr.mid)
    && MutatedFrom(itens, pr.before2, pr.after2, s, pr.mid, pr.end)
    && forall k :: 0 <= k < |pr.c1| && k < |pr.c2| ==>
         pr.before2[k] == if pr.c1[k] == pr.c2[k] then pr.after1[k] else y.1[k]
  }

  /** `p1, p2 = torneio(), torneio()` from position `pos`: the two winners. */
  ghost predicate Won(avals: seq<Scored>, s: nat -> nat, pos: nat, w1: Scored, w2: Scored) {
    |avals| >= 3 && w1 == TournamentPick(avals, s, pos) && w2 == TournamentPick(avals, s, pos + 3)
  }

  /** One whole pass on the ranked entries `avals`: `torneio()` twice, from
      `start` and three draws later, then the crossover and the mutations. */
  ghost predicate Bred(itens: seq<FoodItem>, avals: seq<Scored>, s: nat -> nat, pr: Pair) {
    && |avals| >= 3
    && pr.w1 == TournamentPick(avals, s, pr.start)
    && pr.w2 == TournamentPick(avals, s, pr.start + 3)
    && pr.cut == pr.start + 6
    && Mated(itens, s, pr)
  }

  /** The children of the passes, two per pass, in the order they are appended. */
  function Kids(tr: seq<Pair>): (r: seq<Individual>)
    ensures |r| == 2 * |tr|
    ensures forall i :: 0 <= i < |tr| ==> r[2 * i] == tr[i].c1 && r[2 * i + 1] == tr[i].c2
  {
    if tr == [] then []
    else
      var init := Kids(tr[..|tr| - 1]);
      assert forall i :: 0 <= i < |tr| - 1 ==> tr[..|tr| - 1][i] == tr[i];
      init + [tr[|tr| - 1].c1, tr[|tr| - 1].c2]
  }

  /** The passes follow each other on the stream from `p0` to `p1`. */
  ghost predicate Linked(tr: seq<Pair>, p0: nat, p1: nat)
    decreases |tr|
  {
    if tr == [] then p0 == p1
    else Linked(tr[..|tr| - 1], p0, tr[|tr| - 1].start) && tr[|tr| - 1].end == p1
  }

  /** `tr` is the sequence of passes the breeding loop makes on `avals` with
      the stream between `p0` and `p1`. */
  ghost predicate Chain(itens: seq<FoodItem>, avals: seq<Scored>, s: nat -> nat, tr: seq<Pair>, p0: nat, p1: nat) {
    (forall i :: 0 <= i < |tr| ==> Bred(itens, avals, s, tr[i])) && Linked(tr, p0, p1)
  }

  lemma LinkedSnoc(tr: seq<Pair>, p0: nat, pr: Pair)
    requires Linked(tr, p0, pr.start)
    ensures Linked(tr + [pr], p0, pr.end)
  {
    assert (tr + [pr])[..|tr|] == tr;
  }

  lemma ChainSnoc(itens: seq<FoodItem>, avals: seq<Scored>, s: nat -> nat, tr: seq<Pair>, p0: nat, pr: Pair)
    requires Chain(itens, avals, s, tr, p0, pr.start) && Bred(itens, avals, s, pr)
    ensures Chain(itens, avals, s, tr + [pr], p0, pr.end)
  {
    LinkedSnoc(tr, p0, pr);
    var tr' := tr + [pr];
    forall i | 0 <= i < |tr'|
      ensures Bred(itens, avals, s, tr'[i])
    {
      if i < |tr| {
        assert tr'[i] == tr[i];
      }
    }
  }

  /** How many passes the loop makes after an elite of `e`: none when the
      elite fills the population, otherwise enough pairs to reach `popSize`. */
  function Passes(e: int, popSize: int): (k: nat)
    ensures e + 2 * k >= popSize
    ensures k > 0 ==> e + 2 * k - 2 < popSize
    decreases popSize - e
  {
    if e >= popSize then 0 else 1 + Passes(e + 2, popSize)
  }

  /** The loop makes exactly `Passes` turns: the count is fixed by the exit
      test and the test that let the last turn in. */
  lemma {:induction false} PassesExact(e: int, popSize: int, k: nat)
    requires e + 2 * k >= popSize && (k > 0 ==> e + 2 * k - 2 < popSize) && (e >= popSize ==> k == 0)
    ensures k == Passes(e, popSize)
    decreases k
  {
    if k > 0 {
      PassesExact(e + 2, popSize, k - 1);
    }
  }

  /** The `while len(filhos) < pop_size` loop: children in pairs, from two
      tournaments, one crossover and two mutations, after the elite. */
  method Breed(itens: seq<FoodItem>, avals: seq<Scored>, elite: seq<Individual>, popSize: int, n: int, rng: Rng,
               ghost slot: map<Meal, int>)
    returns (r: Result<seq<Individual>, Failure>, ghost tr: seq<Pair>)
    requires |itens| > 0 && ValidMeals(itens, slot.Keys)
    requires Breedable(avals, n, slot) && Shaped(elite, n) && AllPlaced(elite, slot)
    modifies slot.Keys, rng
    ensures ValidMeals(itens, slot.Keys)
    ensures Chain(itens, avals, rng.stream, tr, old(rng.pos), rng.pos)
    ensures r.Err? <==> |elite| < popSize && |avals| < 3
    ensures r.Err? ==> r.error == SampleTooLarge && tr == []
    ensures r.Ok? ==> r.value == elite + Kids(tr) && |tr| == Passes(|elite|, popSize)
    ensures r.Ok? ==> popSize <= |r.value| && |elite| <= |r.value| && r.value[..|elite|] == elite
    ensures r.Ok? ==> |elite| < popSize ==> |r.value| <= popSize + 1
    ensures r.Ok? ==> Shaped(r.value, n) && AllPlaced(r.value, slot)
  {
    ghost var p0 := rng.pos;
    tr := [];
    var filhos := elite;
    while |filhos| < popSize
      invariant filhos == elite + Kids(tr) && Chain(itens, avals, rng.stream, tr, p0, rng.pos)
      invariant tr != [] ==> |elite| + 2 * |tr| - 2 < popSize
      invariant Shaped(filhos, n) && AllPlaced(filhos, slot) && ValidMeals(itens, slot.Keys)
      decreases popSize - |filhos|
    {
      if |avals| < 3 {
        return Err(SampleTooLarge), tr;
      }
      filhos, tr := Pass(itens, avals, elite, filhos, n, rng, slot, p0, tr);
    }
    PassesExact(|elite|, popSize, |tr|);
    r := Ok(filhos);
  }

  /** One turn of the breeding loop: two more children, one more pass. */
  method Pass(itens: seq<FoodItem>, avals: seq<Scored>, ghost elite: seq<Individual>, filhos: seq<Individual>,
              n: int, rng: Rng, ghost slot: map<Meal, int>, ghost p0: nat, ghost tr: seq<Pair>)
    returns (filhos': seq<Individual>, ghost tr': seq<Pair>)
    requires |itens| > 0 && |avals| >= 3 && ValidMeals(itens, slot.Keys) && Breedable(avals, n, slot)
    requires filhos == elite + Kids(tr) && Chain(itens, avals, rng.stream, tr, p0, rng.pos)
    requires Shaped(filhos, n) && AllPlaced(filhos, slot)
    modifies slot.Keys, rng
    ensures filhos' == elite + Kids(tr') && Chain(itens, avals, rng.stream, tr', p0, rng.pos)
    ensures |tr'| == |tr| + 1 && |filhos'| == |filhos| + 2
    ensures Shaped(filhos', n) && AllPlaced(filhos', slot) && ValidMeals(itens, slot.Keys)
  {
    var f1, f2, pr, i1, i2 := Offspring(itens, avals, n, rng, slot);
    ChainSnoc(itens, avals, rng.stream, tr, p0, pr);
    KidsSnoc(elite, tr, pr);
    PlacedSnoc(filhos, f1, f2, n, slot);
    tr' := tr + [pr];
    filhos' := filhos + [f1, f2];
  }

  lemma KidsSnoc(elite: seq<Individual>, tr: seq<Pair>, pr: Pair)
    ensures elite + Kids(tr + [pr]) == elite + Kids(tr) + [pr.c1, pr.c2]
  {
    assert (tr + [pr])[..|tr|] == tr;
  }

  lemma PlacedSnoc(pop: seq<Individual>, f1: Individual, f2: Individual, n: int, slot: map<Meal, int>)
    requires Shaped(pop, n) && AllPlaced(pop, slot)
    requires |f1| == n && |f2| == n && Placed(f1, slot) && Placed(f2, slot)
    ensures Shaped(pop + [f1, f2], n) && AllPlaced(pop + [f1, f2], slot)
  {
  }

  /** `p1, p2 = torneio(), torneio()`, the crossover and both mutations. */
  method Offspring(itens: seq<FoodItem>, avals: seq<Scored>, n: int, rng: Rng, ghost slot: map<Meal, int>)
    returns (f1: Individual, f2: Individual, ghost pr: Pair, ghost i1: nat, ghost i2: nat)
    requires |itens| > 0 && |avals| >= 3 && ValidMeals(itens, slot.Keys) && Breedable(avals, n, slot)
    modifies slot.Keys, rng
    ensures ValidMeals(itens, slot.Keys)
    ensures |f1| == n && |f2| == n && Placed(f1, slot) && Placed(f2, slot)
    ensures i1 < |avals| && i2 < |avals| && pr.w1 == avals[i1] && pr.w2 == avals[i2]
    ensures pr.g1 == old(Contents(avals[i1].ind)) && pr.g2 == old(Contents(avals[i2].ind))
    ensures Bred(itens, avals, rng.stream, pr) && pr.start == old(rng.pos) && pr.end == rng.pos
    ensures f1 == pr.c1 && f2 == pr.c2 && Contents(f2) == pr.after2 && |pr.after1| == n && |pr.after2| == n
    ensures forall k :: 0 <= k < n ==> f1[k][..] == if f1[k] == f2[k] then pr.after2[k] else pr.after1[k]
  {
    var p1, p2;
    ghost var p0 := rng.pos;
    p1, p2, i1, i2 := Winners(avals, rng);
    BreedablePick(avals, i1, n, slot);
    BreedablePick(avals, i2, n, slot);
    f1, f2, pr := Children(itens, p1, p2, n, rng, slot, p0);
    BredIntro(itens, avals, rng.stream, pr);
  }

  /** `p1, p2 = torneio(), torneio()`: two tournaments in turn, each a
      winner from the list. */
  method Winners(avals: seq<Scored>, rng: Rng) returns (p1: Scored, p2: Scored, ghost i1: nat, ghost i2: nat)
    requires |avals| >= 3
    modifies rng
    ensures Won(avals, rng.stream, old(rng.pos), p1, p2)
    ensures rng.pos == old(rng.pos) + 6
    ensures i1 < |avals| && i2 < |avals| && avals[i1] == p1 && avals[i2] == p2
    ensures Contents(avals[i1].ind) == old(Contents(avals[i1].ind)) && Contents(avals[i2].ind) == old(Contents(avals[i2].ind))
  {
    p1, i1 := Tournament(avals, rng);
    p2, i2 := Tournament(avals, rng);
  }

  /** Every entry of a breedable list is an individual of `n` placed meals. */
  lemma BreedablePick(avals: seq<Scored>, i: nat, n: int, slot: map<Meal, int>)
    requires Breedable(avals, n, slot) && i < |avals|
    ensures |avals[i].ind| == n && Placed(avals[i].ind, slot)
  {
  }

  /** Drawing touches no meal array: every entry keeps its genes. */
  twostate lemma EntriesKept(avals: seq<Scored>)
    requires forall j, k :: 0 <= j < |avals| && 0 <= k < |avals[j].ind| ==> unchanged(avals[j].ind[k])
    ensures forall j :: 0 <= j < |avals| ==> Contents(avals[j].ind) == old(Contents(avals[j].ind))
  {
    forall j | 0 <= j < |avals|
      ensures Contents(avals[j].ind) == old(Contents(avals[j].ind))
    {
      ContentsKept(avals[j].ind);
    }
  }

  /** Meal arrays nobody wrote to still hold the same genes. */
  twostate lemma ContentsKept(ind: Individual)
    requires forall k :: 0 <= k < |ind| ==> unchanged(ind[k])
    ensures Contents(ind) == old(Contents(ind))
  {
  }

  lemma BredIntro(itens: seq<FoodItem>, avals: seq<Scored>, s: nat -> nat, pr: Pair)
    requires |avals| >= 3 && pr.cut == pr.start + 6
    requires Won(avals, s, pr.start, pr.w1, pr.w2)
    requires Mated(itens, s, pr)
    ensures Bred(itens, avals, s, pr)
  {
  }

  /** Two placed individuals can share a meal array only at one position. */
  lemma SharedInPlace(a: Individual, b: Individual, slot: map<Meal, int>)
    requires Placed(a, slot) && Placed(b, slot)
    ensures forall k, j :: 0 <= k < |a| && 0 <= j < |b| && a[k] == b[j] ==> k == j
  {
  }

  /** `f1, f2 = _crossover(p1, p2)`, then `_mutar` on each child: the first
      child's genes change first, and where the children share a meal array
      the second mutation starts from, and leaves in both children, what the
      first one left there. */
  method Children(itens: seq<FoodItem>, w1: Scored, w2: Scored, n: int, rng: Rng, ghost slot: map<Meal, int>,
                  ghost start: nat)
    returns (f1: Individual, f2: Individual, ghost pr: Pair)
    requires |itens| > 0 && ValidMeals(itens, slot.Keys)
    requires |w1.ind| == n && |w2.ind| == n && Placed(w1.ind, slot) && Placed(w2.ind, slot)
    modifies slot.Keys, rng
    ensures ValidMeals(itens, slot.Keys)
    ensures |f1| == n && |f2| == n && Placed(f1, slot) && Placed(f2, slot)
    ensures Mated(itens, rng.stream, pr) && pr.w1 == w1 && pr.w2 == w2
    ensures pr.start == start && pr.cut == old(rng.pos) && pr.end == rng.pos
    ensures pr.g1 == old(Contents(w1.ind)) && pr.g2 == old(Contents(w2.ind))
    ensures f1 == pr.c1 && f2 == pr.c2 && Contents(f2) == pr.after2 && |pr.after1| == n && |pr.after2| == n
    ensures forall k :: 0 <= k < n ==> f1[k][..] == if f1[k] == f2[k] then pr.after2[k] else pr.after1[k]
  {
    ghost var g1, g2 := Contents(w1.ind), Contents(w2.ind);
    CrossoverPlaced(w1.ind, w2.ind, rng.stream, rng.pos, n, slot);
    ghost var cut := rng.pos;
    f1, f2 := CrossoverStep(w1.ind, w2.ind, rng);
    pr := MutatePair(itens, w1, w2, g1, g2, f1, f2, n, rng, slot, start, cut);
  }

  /** The genes of `_crossover`'s children are `_crossover` of the parents' genes. */
  lemma CrossoverContents(p1: Individual, p2: Individual, s: nat -> nat, pos: nat, c1: Individual, c2: Individual, q: nat)
    requires |p1| == |p2| && (c1, c2, q) == Crossover(p1, p2, s, pos)
    ensures (Contents(c1), Contents(c2), q) == Crossover(Contents(p1), Contents(p2), s, pos)
  {
    var g1, g2 := Contents(p1), Contents(p2);
    assert |g1| == |p1|;
    if |p1| >= 2 {
      var cp := 1 + Below(s, pos, |p1| - 1);
      assert Crossover(p1, p2, s, pos) == (CrossAt(p1, p2, cp).0, CrossAt(p1, p2, cp).1, pos + 1);
      assert Crossover(g1, g2, s, pos) == (CrossAt(g1, g2, cp).0, CrossAt(g1, g2, cp).1, pos + 1);
      CrossAtContents(p1, p2, cp);
    }
  }

  lemma CrossAtContents(p1: Individual, p2: Individual, cp: int)
    requires |p1| == |p2| && 1 <= cp < |p1|
    ensures Contents(CrossAt(p1, p2, cp).0) == CrossAt(Contents(p1), Contents(p2), cp).0
    ensures Contents(CrossAt(p1, p2, cp).1) == CrossAt(Contents(p1), Contents(p2), cp).1
  {
    var c1, c2 := Contents(p1), Contents(p2);
    CrossAtLaws(p1, p2, cp);
    CrossAtLaws(c1, c2, cp);
    var x, y := CrossAt(p1, p2, cp), CrossAt(c1, c2, cp);
    assert forall k :: 0 <= k < |p1| ==> Contents(x.0)[k] == y.0[k] && Contents(x.1)[k] == y.1[k];
  }

  lemma MatedIntro(itens: seq<FoodItem>, s: nat -> nat, w1: Scored, w2: Scored, g1: seq<seq<Gene>>, g2: seq<seq<Gene>>,
                   c1: Individual, c2: Individual, b1: seq<seq<Gene>>, a1: seq<seq<Gene>>, o2: seq<seq<Gene>>,
                   b2: seq<seq<Gene>>, a2: seq<seq<Gene>>, start: nat, cut: nat, q: nat, mid: nat, end: nat)
    requires (c1, c2, q) == Crossover(w1.ind, w2.ind, s, cut)
    requires (b1, o2, q) == Crossover(g1, g2, s, cut)
    requires MutatedFrom(itens, b1, a1, s, q, mid) && MutatedFrom(itens, b2, a2, s, mid, end)
    requires |b1| == |c1| && |b2| == |c2| == |o2|
    requires forall k :: 0 <= k < |c1| && k < |c2| ==> b2[k] == if c1[k] == c2[k] then a1[k] else o2[k]
    ensures Mated(itens, s, Pair(w1, w2, g1, g2, c1, c2, b1, a1, b2, a2, start, cut, mid, end))
  {
  }

  /** `_mutar(f1)` and then `_mutar(f2)` on the children `_crossover` made
      of the winners' meal lists at `cut`, while the winners' meal arrays
      hold `g1` and `g2`; no other meal array changes. */
  method MutatePair(itens: seq<FoodItem>, w1: Scored, w2: Scored, ghost g1: seq<seq<Gene>>, ghost g2: seq<seq<Gene>>,
                    f1: Individual, f2: Individual, n: int, rng: Rng, ghost slot: map<Meal, int>, ghost start: nat,
                    ghost cut: nat)
    returns (ghost pr: Pair)
    requires |itens| > 0 && ValidMeals(itens, slot.Keys)
    requires |w1.ind| == n && |w2.ind| == n && g1 == Contents(w1.ind) && g2 == Contents(w2.ind)
    requires |f1| == n && |f2| == n && Placed(f1, slot) && Placed(f2, slot)
    requires (f1, f2, rng.pos) == Crossover(w1.ind, w2.ind, rng.stream, cut)
    modifies slot.Keys, rng
    ensures ValidMeals(itens, slot.Keys)
    ensures Mated(itens, rng.stream, pr) && pr.w1 == w1 && pr.w2 == w2
    ensures pr.start == start && pr.cut == cut && pr.end == rng.pos
    ensures pr.g1 == g1 && pr.g2 == g2 && f1 == pr.c1 && f2 == pr.c2 && Contents(f2) == pr.after2
    ensures |pr.after1| == n && |pr.after2| == n
    ensures forall k :: 0 <= k < n ==> f1[k][..] == if f1[k] == f2[k] then pr.after2[k] else pr.after1[k]
    ensures forall m :: m in slot && m !in f1 && m !in f2 ==> m[..] == old(m[..])
  {
    SharedInPlace(f1, f2, slot);
    CrossoverContents(w1.ind, w2.ind, rng.stream, cut, f1, f2, rng.pos);
    ghost var q := rng.pos;
    ghost var b1, o2 := Contents(f1), Contents(f2);
    ghost var a1, b2 := MutateFirst(itens, f1, f2, n, rng, slot, b1, o2);
    ghost var mid := rng.pos;
    ghost var a2 := MutateSecond(itens, f1, f2, n, rng, slot, a1, b2);
    MatedIntro(itens, rng.stream, w1, w2, g1, g2, f1, f2, b1, a1, o2, b2, a2, start, cut, q, mid, rng.pos);
    pr := Pair(w1, w2, g1, g2, f1, f2, b1, a1, b2, a2, start, cut, mid, rng.pos);
  }

  /** `_mutar(f1)`: the second child sees the new genes only in the meal
      arrays it shares with the first. */
  method MutateFirst(itens: seq<FoodItem>, f1: Individual, f2: Individual, n: int, rng: Rng, ghost slot: map<Meal, int>,
                     ghost b1: seq<seq<Gene>>, ghost o2: seq<seq<Gene>>)
    returns (ghost a1: seq<seq<Gene>>, ghost b2: seq<seq<Gene>>)
    requires |itens| > 0 && ValidMeals(itens, slot.Keys)
    requires |f1| == n && |f2| == n && Placed(f1, slot) && Placed(f2, slot)
    requires forall k, j :: 0 <= k < n && 0 <= j < n && f1[k] == f2[j] ==> k == j
    requires b1 == Contents(f1) && o2 == Contents(f2)
    modifies slot.Keys, rng
    ensures ValidMeals(itens, slot.Keys)
    ensures a1 == Contents(f1) && b2 == Contents(f2)
    ensures MutatedFrom(itens, b1, a1, rng.stream, old(rng.pos), rng.pos)
    ensures forall k :: 0 <= k < n ==> b2[k] == if f2[k] == f1[k] then a1[k] else o2[k]
    ensures forall m :: m in slot && m !in f1 ==> m[..] == old(m[..])
  {
    MutateChild(itens, f1, rng, slot);
    a1 := Contents(f1);
    b2 := Contents(f2);
    forall k | 0 <= k < n
      ensures b2[k] == if f2[k] == f1[k] then a1[k] else o2[k]
    {
      assert f2[k] != f1[k] ==> f2[k] !in f1;
    }
  }

  /** `_mutar(f2)`: the first child sees the new genes only in the meal
      arrays it shares with the second. */
  method MutateSecond(itens: seq<FoodItem>, f1: Individual, f2: Individual, n: int, rng: Rng, ghost slot: map<Meal, int>,
                      ghost a1: seq<seq<Gene>>, ghost b2: seq<seq<Gene>>)
    returns (ghost a2: seq<seq<Gene>>)
    requires |itens| > 0 && ValidMeals(itens, slot.Keys)
    requires |f1| == n && |f2| == n && Placed(f1, slot) && Placed(f2, slot)
    requires forall k, j :: 0 <= k < n && 0 <= j < n && f1[k] == f2[j] ==> k == j
    requires a1 == Contents(f1) && b2 == Contents(f2)
    modifies slot.Keys, rng
    ensures ValidMeals(itens, slot.Keys)
    ensures a2 == Contents(f2)
    ensures MutatedFrom(itens, b2, a2, rng.stream, old(rng.pos), rng.pos)
    ensures forall k :: 0 <= k < n ==> f1[k][..] == if f1[k] == f2[k] then a2[k] else a1[k]
    ensures forall m :: m in slot && m !in f2 ==> m[..] == old(m[..])
  {
    MutateChild(itens, f2, rng, slot);
    a2 := Contents(f2);
    forall k | 0 <= k < n
      ensures f1[k][..] == if f1[k] == f2[k] then a2[k] else a1[k]
    {
      assert f1[k] != f2[k] ==> f1[k] !in f2;
    }
  }

  // ---------------------------------------------------------------------------
  // One generation
  // ---------------------------------------------------------------------------

  /** `[a[0] for a in avals[:elit]]` and the like. */
  function Inds(avals: seq<Scored>): (r: seq<Individual>)
    ensures |r| == |avals| && forall i :: 0 <= i < |avals| ==> r[i] == avals[i].ind
  {
    seq(|avals|, i requires 0 <= i < |avals| => avals[i].ind)
  }

  /** One entry of `historico`: the generation and the tuple of its best entry. */
  datatype HistEntry = HistEntry(ger: int, best: Eval)

  /** The breeding loop fails exactly when it must run and `random.sample`
      has fewer than three entries to draw from. */
  predicate SampleFails(popSize: int, elit: int) {
    popSize < 3 && elit < popSize
  }

  /** `avals[:elit]` of a list of `popSize >= 1` entries is shorter than the
      population exactly when `elit < popSize`. */
  lemma EliteShort<T>(avals: seq<T>, elit: int)
    requires |avals| >= 1
    ensures |Take(avals, elit)| < |avals| <==> elit < |avals|
  {
  }

  /** Truncating the children to `popSize` keeps the elite in front. */
  lemma EliteKept(avals: seq<Scored>, elit: int, filhos: seq<Individual>)
    requires |avals| <= |filhos|
    requires var elite := Inds(Take(avals, elit)); |elite| <= |filhos| && filhos[..|elite|] == elite
    ensures Take(Take(filhos, |avals|), elit) == Inds(Take(avals, elit))
  {
    var elite := Inds(Take(avals, elit));
    var x := Take(filhos, |avals|);
    assert x == filhos[..|avals|];
    assert x[..|elite|] == elite;
  }

  /** Cutting a population keeps every individual as it was. */
  lemma TakePlaced(pop: seq<Individual>, k: int, n: int, slot: map<Meal, int>)
    requires 0 <= k <= |pop| && Shaped(pop, n) && AllPlaced(pop, slot)
    ensures |Take(pop, k)| == k && Shaped(Take(pop, k), n) && AllPlaced(Take(pop, k), slot)
  {
  }

  /** Evaluation, ranking, the elite and the history entry. */
  method Rank(itens: seq<FoodItem>, t: Targets, cfg: Config, pop: seq<Individual>, elit: int, n: int,
              ghost slot: map<Meal, int>)
    returns (avals: seq<Scored>, elite: seq<Individual>)
    requires WellPlaced(itens, pop, n, slot)
    ensures avals == SortBy(Scores(itens, t, cfg, pop, slot), JKey)
    ensures avals != [] ==> avals[0] == FirstLeast(Scores(itens, t, cfg, pop, slot), JKey)
    ensures Breedable(avals, n, slot)
    ensures elite == Inds(Take(avals, elit))
    ensures Shaped(elite, n) && AllPlaced(elite, slot)
  {
    avals := EvaluatePopulation(itens, t, cfg, pop, slot);
    RankedFromPopulation(itens, t, cfg, pop, slot, n);
    if avals != [] {
      SortByHead(avals, JKey);
    }
    avals := SortBy(avals, JKey);
    EliteUsable(avals, elit, n, slot);
    elite := Inds(Take(avals, elit));
  }

  /** The elite is drawn from the ranked entries. */
  lemma EliteUsable(avals: seq<Scored>, elit: int, n: int, slot: map<Meal, int>)
    requires Breedable(avals, n, slot)
    ensures Shaped(Inds(Take(avals, elit)), n) && AllPlaced(Inds(Take(avals, elit)), slot)
  {
    var top := Take(avals, elit);
    forall i | 0 <= i < |top|
      ensures |top[i].ind| == n && Placed(top[i].ind, slot)
    {
      assert top[i] in avals;
    }
  }

  /** The children of one generation, truncated to `popSize`. */
  method NextPopulation(itens: seq<FoodItem>, avals: seq<Scored>, elite: seq<Individual>, popSize: int, elit: int,
                        n: int, rng: Rng, ghost slot: map<Meal, int>)
    returns (r: Result<seq<Individual>, Failure>, ghost tr: seq<Pair>)
    requires |itens| > 0 && ValidMeals(itens, slot.Keys) && 1 <= |avals| == popSize
    requires Breedable(avals, n, slot) && elite == Inds(Take(avals, elit)) && Shaped(elite, n) && AllPlaced(elite, slot)
    modifies slot.Keys, rng
    ensures ValidMeals(itens, slot.Keys)
    ensures Chain(itens, avals, rng.stream, tr, old(rng.pos), rng.pos)
    ensures r.Err? <==> SampleFails(popSize, elit)
    ensures r.Err? ==> r.error == SampleTooLarge
    ensures r.Ok? ==> r.value == Take(elite + Kids(tr), popSize) && |tr| == Passes(|elite|, popSize)
    ensures r.Ok? ==> |r.value| == popSize && Shaped(r.value, n) && AllPlaced(r.value, slot)
    ensures r.Ok? ==> Take(r.value, elit) == elite
  {
    EliteShort(avals, elit);
    var b;
    b, tr := Breed(itens, avals, elite, popSize, n, rng, slot);
    if b.Err? {
      return Err(b.error), tr;
    }
    EliteKept(avals, elit, b.value);
    TakePlaced(b.value, popSize, n, slot);
    r := Ok(Take(b.value, popSize));
  }

  /** The genes `menus` of the individuals `pop` can be scored. */
  predicate Scorable(itens: seq<FoodItem>, pop: seq<Individual>, menus: seq<seq<seq<Gene>>>) {
    |pop| == |menus| && forall i :: 0 <= i < |menus| ==> ValidMenu(menus[i], |itens|)
  }

  /** The entries of a population as `sorted(avals, key=...)` ranks them,
      for the individuals `pop` holding the genes `menus`. */
  ghost function Ranked(itens: seq<FoodItem>, t: Targets, cfg: Config, pop: seq<Individual>, menus: seq<seq<seq<Gene>>>): seq<Scored>
    requires Scorable(itens, pop, menus)
  {
    SortBy(ScoresOf(itens, t, cfg, pop, menus), JKey)
  }

  /** The individuals of the next generation: the first `elit` of the
      ranking, then the children of the passes `tr`, cut to `popSize`. */
  ghost function Successor(ranked: seq<Scored>, elit: int, popSize: int, tr: seq<Pair>): seq<Individual> {
    Take(Inds(Take(ranked, elit)) + Kids(tr), popSize)
  }

  /** The body of `for g in range(ger)`. */
  method Generation(itens: seq<FoodItem>, t: Targets, cfg: Config, pop: seq<Individual>, popSize: int, elit: int,
                    n: int, g: int, rng: Rng, ghost slot: map<Meal, int>)
    returns (r: Result<(seq<Individual>, HistEntry), Failure>, ghost ranked: seq<Scored>, ghost tr: seq<Pair>)
    requires |itens| > 0 && |pop| == Max(0, popSize) && WellPlaced(itens, pop, n, slot)
    modifies slot.Keys, rng
    ensures ranked == SortBy(old(Scores(itens, t, cfg, pop, slot)), JKey)
    ensures ranked != [] ==> ranked[0] == FirstLeast(old(Scores(itens, t, cfg, pop, slot)), JKey)
    ensures ValidMeals(itens, slot.Keys)
    ensures Chain(itens, ranked, rng.stream, tr, old(rng.pos), rng.pos)
    ensures r.Err? <==> popSize <= 0 || SampleFails(popSize, elit)
    ensures r.Err? ==> r.error == if popSize <= 0 then EmptyPopulation else SampleTooLarge
    ensures r.Ok? ==> |r.value.0| == popSize && WellPlaced(itens, r.value.0, n, slot)
    ensures r.Ok? ==> r.value.1 == HistEntry(g, ranked[0].e)
    ensures r.Ok? ==> r.value.0 == Successor(ranked, elit, popSize, tr)
    ensures r.Ok? ==> Take(r.value.0, elit) == Inds(Take(ranked, elit))
  {
    var avals, elite := Rank(itens, t, cfg, pop, elit, n, slot);
    ranked := avals;
    tr := [];
    if |avals| == 0 {
      return Err(EmptyPopulation), ranked, tr;
    }
    var entry := HistEntry(g, avals[0].e);
    var next;
    next, tr := NextPopulation(itens, avals, elite, popSize, elit, n, rng, slot);
    if next.Err? {
      return Err(next.error), ranked, tr;
    }
    r := Ok((next.value, entry));
  }
}
