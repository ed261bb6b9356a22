/** The entry point `gerar_cardapio` (assets/genetic_module/genetic_module.py:597-753)
    around the evolutionary steps of module Evolution: it reads its settings
    from `params`, loads the catalogue, draws the initial population, runs
    `ger` generations while recording the best score of each, and finally
    scales the best individual to the energy target, scores it again and
    reports its meals.  Reading the CSV file is the parameter `table` (the rows
    of the file at a path), and `random.seed(s)` is the parameter `streams`
    (the draws that follow seeding with `s`). */
module Driver {
  import opened Common
  import opened Foods
  import opened Menu
  import opened Params
  import opened Fitness
  import opened FitnessLaws
  import opened Random
  import opened Sorting
  import opened Creation
  import opened Scaling
  import opened Catalog
  import opened Evolution

  // ---------------------------------------------------------------------------
  // Settings and failures
  // ---------------------------------------------------------------------------

  /** The genetic algorithm's hyper-parameters. */
  datatype Settings = Settings(nRef: int, popSize: int, ger: int, elit: int, bias: real)

  /** The hyper-parameters read from `params`, with the defaults 5 meals, a
      population of 120, 200 generations, 6 elites and a low-energy bias of 0.6. */
  function SettingsOf(p: Params): (st: Settings)
    ensures p.nRefeicoes.None? ==> st.nRef == 5
    ensures p.pop.None? ==> st.popSize == 120
    ensures p.ger.None? ==> st.ger == 200
    ensures p.elit.None? ==> st.elit == 6
    ensures p.lowKcalBias.None? ==> st.bias == 0.6
    ensures p.nRefeicoes.Some? ==> st.nRef == p.nRefeicoes.value
    ensures p.pop.Some? ==> st.popSize == p.pop.value
    ensures p.ger.Some? ==> st.ger == p.ger.value
    ensures p.elit.Some? ==> st.elit == p.elit.value
    ensures p.lowKcalBias.Some? ==> st.bias == p.lowKcalBias.value
  {
    Settings(Get(p.nRefeicoes, 5), Get(p.pop, 120), Get(p.ger, 200), Get(p.elit, 6), Get(p.lowKcalBias, 0.6))
  }

  /** The exception `gerar_cardapio` ends with, if any: no table path, a table
      that yields no usable item, an empty population (whose first ranking, or
      final choice when there are no generations, indexes an empty list), or a
      tournament drawing three entries from a population of fewer than three
      while the elite does not yet fill it. */
  function ExpectedFailure(p: Params, table: string -> seq<Row>): Option<Failure> {
    var st := SettingsOf(p);
    if p.tabelaCsv.None? || p.tabelaCsv.value == [] then Some(MissingTable)
    else if Load(table(p.tabelaCsv.value)) == [] then Some(EmptyTable)
    else if st.popSize <= 0 then Some(EmptyPopulation)
    else if st.ger >= 1 && SampleFails(st.popSize, st.elit) then Some(SampleTooLarge)
    else None
  }

  // ---------------------------------------------------------------------------
  // The generation loop
  // ---------------------------------------------------------------------------

  /** `m` is a menu of `menus` and no menu of `menus` has a smaller J. */
  predicate IsLeast(itens: seq<FoodItem>, t: Targets, cfg: Config, menus: seq<seq<seq<Gene>>>, m: seq<seq<Gene>>) {
    && m in menus && ValidMenu(m, |itens|)
    && forall i :: 0 <= i < |menus| && ValidMenu(menus[i], |itens|) ==>
         Evaluate(itens, t, cfg, m).j <= Evaluate(itens, t, cfg, menus[i]).j
  }

  /** The entry of least J scores a menu whose J is least. */
  lemma LeastScore(itens: seq<FoodItem>, t: Targets, cfg: Config, pop: seq<Individual>, menus: seq<seq<seq<Gene>>>)
    returns (k: int)
    requires |pop| == |menus| && pop != [] && forall i :: 0 <= i < |menus| ==> ValidMenu(menus[i], |itens|)
    ensures 0 <= k < |pop| && FirstLeast(ScoresOf(itens, t, cfg, pop, menus), JKey) == ScoresOf(itens, t, cfg, pop, menus)[k]
    ensures IsLeast(itens, t, cfg, menus, menus[k])
  {
    var sc := ScoresOf(itens, t, cfg, pop, menus);
    var w := FirstLeast(sc, JKey);
    k :| 0 <= k < |sc| && sc[k] == w;
    assert w.e == Evaluate(itens, t, cfg, menus[k]);
    forall i | 0 <= i < |menus|
      ensures w.e.j <= Evaluate(itens, t, cfg, menus[i]).j
    {
      assert sc[i] in sc;
      assert JKey(w) <= JKey(sc[i]);
    }
  }

  /** The head of the ranking scores an individual of the population whose
      genes have the least J of all. */
  lemma HeadIsLeast(itens: seq<FoodItem>, t: Targets, cfg: Config, pop: seq<Individual>, n: int, slot: map<Meal, int>)
    requires WellPlaced(itens, pop, n, slot) && pop != []
    ensures var w := FirstLeast(Scores(itens, t, cfg, pop, slot), JKey);
      && w.ind in pop
      && ValidMenu(Contents(w.ind), |itens|)
      && w.e == Evaluate(itens, t, cfg, Contents(w.ind))
      && IsLeast(itens, t, cfg, Population(pop, slot), Contents(w.ind))
  {
    var menus := Population(pop, slot);
    PopulationValid(itens, pop, slot);
    var k := LeastScore(itens, t, cfg, pop, menus);
    assert menus[k] == Contents(pop[k]);
  }

  /** What the generation loop has seen: the genes of the population at the
      start of each generation and a least-J menu of each; the individuals at
      the start of each generation and after the last one; the breeding passes
      of each generation; and the stream position at each of those points. */
  datatype History = History(pops: seq<seq<seq<seq<Gene>>>>, champs: seq<seq<seq<Gene>>>,
                             inds: seq<seq<Individual>>, trs: seq<seq<Pair>>, marks: seq<nat>)

  /** `hist` records generation `i` as a least J of the population it ranked. */
  predicate Recorded(itens: seq<FoodItem>, t: Targets, cfg: Config, hist: seq<HistEntry>, h: History) {
    && |hist| == |h.pops| == |h.champs|
    && forall i :: 0 <= i < |hist| ==>
         hist[i].ger == i && IsLeast(itens, t, cfg, h.pops[i], h.champs[i])
         && hist[i].best == Evaluate(itens, t, cfg, h.champs[i])
  }

  lemma RecordedSnoc(itens: seq<FoodItem>, t: Targets, cfg: Config, hist: seq<HistEntry>, h: History, h': History,
                     menus: seq<seq<seq<Gene>>>, champ: seq<seq<Gene>>, e: HistEntry)
    requires Recorded(itens, t, cfg, hist, h)
    requires e.ger == |hist| && IsLeast(itens, t, cfg, menus, champ) && e.best == Evaluate(itens, t, cfg, champ)
    requires h'.pops == h.pops + [menus] && h'.champs == h.champs + [champ]
    ensures Recorded(itens, t, cfg, hist + [e], h')
  {
  }

  /** Each generation of `h` ranks its individuals by the genes they hold,
      breeds with the passes `trs[i]` on the stream `s` between two marks, and
      hands the next generation the elite followed by the children. */
  ghost predicate Evolved(itens: seq<FoodItem>, t: Targets, cfg: Config, st: Settings, s: nat -> nat, h: History) {
    && |h.inds| == |h.pops| + 1 && |h.trs| == |h.pops| && |h.marks| == |h.pops| + 1
    && forall i :: 0 <= i < |h.pops| ==>
         Bridged(itens, t, cfg, st, s, h.inds[i], h.pops[i], h.trs[i], h.marks[i], h.marks[i + 1], h.inds[i + 1])
  }

  /** One generation: the individuals `pop` holding the genes `menus` are
      ranked, the passes `tr` breed on the stream from `p0` to `p1`, and
      `next` is the elite followed by the children. */
  ghost predicate Bridged(itens: seq<FoodItem>, t: Targets, cfg: Config, st: Settings, s: nat -> nat,
                          pop: seq<Individual>, menus: seq<seq<seq<Gene>>>, tr: seq<Pair>, p0: nat, p1: nat,
                          next: seq<Individual>) {
    && Scorable(itens, pop, menus)
    && Chain(itens, Ranked(itens, t, cfg, pop, menus), s, tr, p0, p1)
    && next == Successor(Ranked(itens, t, cfg, pop, menus), st.elit, st.popSize, tr)
  }

  lemma EvolvedSnoc(itens: seq<FoodItem>, t: Targets, cfg: Config, st: Settings, s: nat -> nat, h: History, h': History,
                    menus: seq<seq<seq<Gene>>>, tr: seq<Pair>, next: seq<Individual>, p1: nat)
    requires Evolved(itens, t, cfg, st, s, h)
    requires Bridged(itens, t, cfg, st, s, h.inds[|h.pops|], menus, tr, h.marks[|h.pops|], p1, next)
    requires h'.pops == h.pops + [menus] && h'.inds == h.inds + [next] && h'.trs == h.trs + [tr] && h'.marks == h.marks + [p1]
    ensures Evolved(itens, t, cfg, st, s, h')
  {
    forall i | 0 <= i < |h'.pops|
      ensures Bridged(itens, t, cfg, st, s, h'.inds[i], h'.pops[i], h'.trs[i], h'.marks[i], h'.marks[i + 1], h'.inds[i + 1])
    {
      assert h'.inds[i] == h.inds[i] && h'.marks[i] == h.marks[i];
      if i < |h.pops| {
        assert h'.pops[i] == h.pops[i] && h'.trs[i] == h.trs[i];
        assert h'.marks[i + 1] == h.marks[i + 1] && h'.inds[i + 1] == h.inds[i + 1];
      } else {
        assert h'.pops[i] == menus && h'.trs[i] == tr && h'.marks[i + 1] == p1 && h'.inds[i + 1] == next;
      }
    }
  }

  /** The initial population, as `gerar_cardapio` draws it from the stream `s`. */
  function InitialDraw(itens: seq<FoodItem>, st: Settings, s: nat -> nat, pos: nat): seq<seq<seq<Gene>>>
    requires |itens| > 0
  {
    PoolsOfUsable(itens, st.bias);
    PopulationDraw(itens, PoolsOf(itens, st.bias), Max(0, st.nRef), Max(0, st.popSize), s, pos).0
  }

  /** The stream position after the initial population is drawn. */
  function DrawEnd(itens: seq<FoodItem>, st: Settings, s: nat -> nat, pos: nat): nat
    requires |itens| > 0
  {
    PoolsOfUsable(itens, st.bias);
    PopulationDraw(itens, PoolsOf(itens, st.bias), Max(0, st.nRef), Max(0, st.popSize), s, pos).1
  }

  /** One generation of the loop, with what the history learns from it. */
  method Step(itens: seq<FoodItem>, t: Targets, cfg: Config, st: Settings, pop: seq<Individual>, g: int,
              rng: Rng, ghost slot: map<Meal, int>)
    returns (r: Result<(seq<Individual>, HistEntry), Failure>, ghost menus: seq<seq<seq<Gene>>>, ghost champ: seq<seq<Gene>>,
             ghost tr: seq<Pair>)
    requires |itens| > 0 && |pop| == Max(0, st.popSize) && WellPlaced(itens, pop, Max(0, st.nRef), slot)
    modifies slot.Keys, rng
    ensures menus == old(Population(pop, slot)) && Scorable(itens, pop, menus)
    ensures Chain(itens, Ranked(itens, t, cfg, pop, menus), rng.stream, tr, old(rng.pos), rng.pos)
    ensures r.Ok? ==> Bridged(itens, t, cfg, st, rng.stream, pop, menus, tr, old(rng.pos), rng.pos, r.value.0)
    ensures r.Ok? ==> pop != [] && r.value.1.best == FirstLeast(ScoresOf(itens, t, cfg, pop, menus), JKey).e
    ensures r.Ok? ==> Take(r.value.0, st.elit) == Inds(Take(Ranked(itens, t, cfg, pop, menus), st.elit))
    ensures ValidMeals(itens, slot.Keys)
    ensures r.Err? <==> st.popSize <= 0 || SampleFails(st.popSize, st.elit)
    ensures r.Err? ==> r.error == if st.popSize <= 0 then EmptyPopulation else SampleTooLarge
    ensures r.Ok? ==> |r.value.0| == st.popSize && WellPlaced(itens, r.value.0, Max(0, st.nRef), slot)
    ensures r.Ok? ==>
      r.value.1.ger == g && IsLeast(itens, t, cfg, menus, champ) && r.value.1.best == Evaluate(itens, t, cfg, champ)
  {
    menus := Population(pop, slot);
    PopulationValid(itens, pop, slot);
    ghost var w := Scored([], Eval(0.0, 0.0, 0.0, 0.0, 0.0, 0.0));
    champ := [];
    if pop != [] {
      HeadIsLeast(itens, t, cfg, pop, Max(0, st.nRef), slot);
      w := FirstLeast(Scores(itens, t, cfg, pop, slot), JKey);
      champ := Contents(w.ind);
    }
    ghost var ranked;
    r, ranked, tr := Generation(itens, t, cfg, pop, st.popSize, st.elit, Max(0, st.nRef), g, rng, slot);
  }

  /** The initial population and `for g in range(ger)`: the population that
      survives the last generation and the history entries. */
  method Evolve(itens: seq<FoodItem>, t: Targets, cfg: Config, st: Settings, rng: Rng)
    returns (r: Result<(seq<Individual>, seq<HistEntry>), Failure>, ghost slot: map<Meal, int>, ghost h: History)
    requires |itens| > 0
    modifies rng
    ensures r.Err? <==> st.ger >= 1 && (st.popSize <= 0 || SampleFails(st.popSize, st.elit))
    ensures r.Err? ==> r.error == if st.popSize <= 0 then EmptyPopulation else SampleTooLarge
    ensures r.Ok? ==> |r.value.0| == Max(0, st.popSize) && WellPlaced(itens, r.value.0, Max(0, st.nRef), slot)
    ensures r.Ok? ==> |r.value.1| == Max(0, st.ger) && Recorded(itens, t, cfg, r.value.1, h)
    ensures r.Ok? && st.ger >= 1 ==> h.pops[0] == InitialDraw(itens, st, rng.stream, old(rng.pos))
    ensures r.Ok? && st.ger < 1 ==> Population(r.value.0, slot) == InitialDraw(itens, st, rng.stream, old(rng.pos))
    ensures r.Ok? ==> Evolved(itens, t, cfg, st, rng.stream, h) && h.inds[|h.pops|] == r.value.0
    ensures r.Ok? ==> h.marks[0] == DrawEnd(itens, st, rng.stream, old(rng.pos))
  {
    var n := Max(0, st.nRef);
    var pop;
    ghost var p0 := rng.pos;
    pop, slot := InitialPopulation(itens, st.nRef, st.bias, st.popSize, rng);
    ghost var init := Population(pop, slot);
    assert rng.pos == DrawEnd(itens, st, rng.stream, p0);
    var hist: seq<HistEntry> := [];
    h := History([], [], [pop], [], [rng.pos]);
    var g := 0;
    while g < st.ger
      invariant 0 <= g <= Max(0, st.ger) && |hist| == g
      invariant |pop| == Max(0, st.popSize) && WellPlaced(itens, pop, n, slot)
      invariant Recorded(itens, t, cfg, hist, h)
      invariant Evolved(itens, t, cfg, st, rng.stream, h) && h.inds[g] == pop && h.marks[g] == rng.pos
      invariant h.marks[0] == DrawEnd(itens, st, rng.stream, p0)
      invariant g > 0 ==> !(st.popSize <= 0 || SampleFails(st.popSize, st.elit))
      invariant g > 0 ==> h.pops[0] == init
      invariant g == 0 ==> Population(pop, slot) == init
    {
      var step, menus, champ, tr := Step(itens, t, cfg, st, pop, g, rng, slot);
      if step.Err? {
        return Err(step.error), slot, h;
      }
      ghost var h' := History(h.pops + [menus], h.champs + [champ], h.inds + [step.value.0], h.trs + [tr], h.marks + [rng.pos]);
      RecordedSnoc(itens, t, cfg, hist, h, h', menus, champ, step.value.1);
      EvolvedSnoc(itens, t, cfg, st, rng.stream, h, h', menus, tr, step.value.0, rng.pos);
      h := h';
      hist := hist + [step.value.1];
      pop := step.value.0;
      g := g + 1;
    }
    r := Ok((pop, hist));
  }

  // ---------------------------------------------------------------------------
  // The report
  // ---------------------------------------------------------------------------

  /** `{"id": ..., "nome": ..., "porcao_g": ...}`. */
  datatype OutItem = OutItem(id: string, nome: string, porcao: int)

  /** A gene as reported: its item's id and name and its clamped portion. */
  function DescribeGene(itens: seq<FoodItem>, g: Gene): OutItem
    requires 0 <= g.idx < |itens|
  {
    var it := itens[g.idx];
    OutItem(it.id, it.name, SafePortion(it, g.portion))
  }

  function DescribeMeal(itens: seq<FoodItem>, meal: seq<Gene>): (r: seq<OutItem>)
    requires ValidMeal(meal, |itens|)
    ensures |r| == |meal| && forall i :: 0 <= i < |meal| ==> r[i] == DescribeGene(itens, meal[i])
  {
    seq(|meal|, i requires 0 <= i < |meal| => DescribeGene(itens, meal[i]))
  }

  function Describe(itens: seq<FoodItem>, menu: seq<seq<Gene>>): (r: seq<seq<OutItem>>)
    requires ValidMenu(menu, |itens|)
    ensures |r| == |menu| && forall k :: 0 <= k < |menu| ==> r[k] == DescribeMeal(itens, menu[k])
  {
    seq(|menu|, k requires 0 <= k < |menu| => DescribeMeal(itens, menu[k]))
  }

  /** The reported portions are those the fitness function counts: the menu
      made of the reported items and portions scores exactly as the menu, and
      reporting it again gives the same report. */
  lemma ReportIsScored(itens: seq<FoodItem>, t: Targets, cfg: Config, menu: seq<seq<Gene>>)
    requires ValidMenu(menu, |itens|)
    ensures var d := Describe(itens, menu);
      var c := ClampedMenu(itens, menu);
      && (forall k, i :: 0 <= k < |menu| && 0 <= i < |menu[k]| ==>
            c[k][i] == Gene(menu[k][i].idx, d[k][i].porcao) && d[k][i].id == itens[menu[k][i].idx].id
            && 20 <= d[k][i].porcao <= PortionCap(itens[menu[k][i].idx]))
      && Evaluate(itens, t, cfg, c) == Evaluate(itens, t, cfg, menu)
      && Describe(itens, c) == d
  {
    EvaluateOfClamped(itens, t, cfg, menu);
    var c := ClampedMenu(itens, menu);
    forall k, i | 0 <= k < |menu| && 0 <= i < |menu[k]|
      ensures DescribeGene(itens, c[k][i]) == DescribeGene(itens, menu[k][i])
    {
      SafePortionIdempotent(itens[menu[k][i].idx], menu[k][i].portion);
    }
    assert forall k :: 0 <= k < |menu| ==> DescribeMeal(itens, c[k]) == DescribeMeal(itens, menu[k]);
  }

  /** `for (idx, porcao) in r: blocos.append(...)`. */
  method ReportMeal(itens: seq<FoodItem>, meal: Meal) returns (blocos: seq<OutItem>)
    requires ValidMeal(meal[..], |itens|)
    ensures blocos == DescribeMeal(itens, meal[..])
  {
    blocos := [];
    var i := 0;
    while i < meal.Length
      invariant 0 <= i <= meal.Length && |blocos| == i
      invariant forall j :: 0 <= j < i ==> blocos[j] == DescribeGene(itens, meal[j])
    {
      var g := meal[i];
      var it := itens[g.idx];
      var porcao := SafePortion(it, g.portion);
      blocos := blocos + [OutItem(it.id, it.name, porcao)];
      i := i + 1;
    }
  }

  /** `for r in best: ... refeicoes.append(blocos)`. */
  method Report(itens: seq<FoodItem>, best: Individual) returns (refeicoes: seq<seq<OutItem>>)
    requires ValidMenu(Contents(best), |itens|)
    ensures refeicoes == Describe(itens, Contents(best))
  {
    refeicoes := [];
    var m := 0;
    while m < |best|
      invariant 0 <= m <= |best| && |refeicoes| == m
      invariant forall j :: 0 <= j < m ==> refeicoes[j] == DescribeMeal(itens, best[j][..])
    {
      var blocos := ReportMeal(itens, best[m]);
      refeicoes := refeicoes + [blocos];
      m := m + 1;
    }
  }

  // ---------------------------------------------------------------------------
  // The final choice
  // ---------------------------------------------------------------------------

  /** `final.sort(key=...)` and `final[0]`: the earliest individual with the
      least J, whose genes therefore have the least J of the population. */
  method Best(itens: seq<FoodItem>, t: Targets, cfg: Config, pop: seq<Individual>, n: int, ghost slot: map<Meal, int>)
    returns (best: Individual)
    requires WellPlaced(itens, pop, n, slot) && pop != []
    ensures best == FirstLeast(Scores(itens, t, cfg, pop, slot), JKey).ind
    ensures |best| == n && Placed(best, slot)
    ensures IsLeast(itens, t, cfg, Population(pop, slot), Contents(best))
  {
    var final := EvaluatePopulation(itens, t, cfg, pop, slot);
    SortByHead(final, JKey);
    HeadIsLeast(itens, t, cfg, pop, n, slot);
    final := SortBy(final, JKey);
    best := final[0].ind;
  }

  /** The genes of a placed individual: `n` valid meals of two or three genes. */
  lemma PlacedShape(itens: seq<FoodItem>, best: Individual, n: int, slot: map<Meal, int>)
    requires |best| == n && Placed(best, slot) && ValidMeals(itens, slot.Keys)
    ensures var c := Contents(best);
      |c| == n && ValidMenu(c, |itens|) && forall k :: 0 <= k < |c| ==> 2 <= |c[k]| <= 3
  {
    PlacedIsUsable(itens, best, slot);
    forall k | 0 <= k < |best|
      ensures 2 <= best[k].Length <= 3
    {
      assert best[k] in slot.Keys;
    }
  }

  /** `_escala_para_kcal(best, ..., fator_min=0.8, fator_max=1.8)`, the second
      `_avalia_cardapio` and the report, on an individual whose genes are `chosen`. */
  method Present(itens: seq<FoodItem>, t: Targets, cfg: Config, best: Individual, ghost chosen: seq<seq<Gene>>)
    returns (fit: Eval, refeicoes: seq<seq<OutItem>>, ghost menu: seq<seq<Gene>>)
    requires chosen == Contents(best) && ValidMenu(chosen, |itens|)
    ensures menu == ScaleToKcalSpec(itens, t.kcal, 0.8, 1.8, chosen)
    ensures ValidMenu(menu, |itens|) && fit == Evaluate(itens, t, cfg, menu) && refeicoes == Describe(itens, menu)
  {
    var scaled := ScaleToKcal(itens, t.kcal, 0.8, 1.8, best);
    menu := Contents(scaled);
    fit := EvaluateMenu(itens, t, cfg, Contents(scaled));
    refeicoes := Report(itens, scaled);
  }

  /** The final ranking of the population `final` as it leaves the last
      generation, then `Present` on its best individual. */
  method Finish(itens: seq<FoodItem>, t: Targets, cfg: Config, pop: seq<Individual>, n: int, ghost slot: map<Meal, int>,
                ghost final: seq<seq<seq<Gene>>>)
    returns (fit: Eval, refeicoes: seq<seq<OutItem>>, ghost chosen: seq<seq<Gene>>, ghost menu: seq<seq<Gene>>,
             ghost k: int)
    requires WellPlaced(itens, pop, n, slot) && pop != [] && final == Population(pop, slot)
    ensures Scorable(itens, pop, final) && 0 <= k < |pop| && chosen == final[k]
    ensures FirstLeast(ScoresOf(itens, t, cfg, pop, final), JKey) == ScoresOf(itens, t, cfg, pop, final)[k]
    ensures IsLeast(itens, t, cfg, final, chosen)
    ensures menu == ScaleToKcalSpec(itens, t.kcal, 0.8, 1.8, chosen)
    ensures |menu| == n && forall k :: 0 <= k < |menu| ==> 2 <= |menu[k]| <= 3
    ensures ValidMenu(menu, |itens|) && fit == Evaluate(itens, t, cfg, menu) && refeicoes == Describe(itens, menu)
  {
    var best := Best(itens, t, cfg, pop, n, slot);
    PlacedShape(itens, best, n, slot);
    PopulationValid(itens, pop, slot);
    k := LeastScore(itens, t, cfg, pop, final);
    chosen := Contents(best);
    fit, refeicoes, menu := Present(itens, t, cfg, best, chosen);
  }

  // ---------------------------------------------------------------------------
  // gerar_cardapio
  // ---------------------------------------------------------------------------

  /** The dictionary `gerar_cardapio` returns. */
  datatype Output = Output(fitness: Eval, refeicoes: seq<seq<OutItem>>, historico: seq<HistEntry>)

  /** What a run produced, besides its output: the generations, the genes
      and the individuals of the final population, the menu chosen from it,
      the position of its first least-J entry and the menu reported. */
  datatype Trace = Trace(h: History, hist: seq<HistEntry>, final: seq<seq<seq<Gene>>>, last: seq<Individual>,
                         chosen: seq<seq<Gene>>, k: int, menu: seq<seq<Gene>>)

  /** The trace of a run that failed before it evolved anything. */
  const NoTrace := Trace(History([], [], [], [], []), [], [], [], [], 0, [])

  /** The promises of a successful run on catalogue `itens` with the stream
      `s` from position `pos`: the menu has `n_refeicoes` meals of two or three
      genes; it is the scaled menu of the individual `final.sort` puts first,
      the earliest of least J in the final population; the fitness is its
      score and the report lists its items with clamped portions; the history
      has one entry per generation, each the least J of the population it
      ranked, of which the last ten are returned; every generation breeds the
      next from its ranking; and everything starts from the population drawn
      from the stream. */
  ghost predicate Outcome(itens: seq<FoodItem>, t: Targets, cfg: Config, st: Settings, s: nat -> nat, pos: nat, out: Output, tr: Trace) {
    && |itens| > 0
    && |tr.menu| == Max(0, st.nRef) && (forall k :: 0 <= k < |tr.menu| ==> 2 <= |tr.menu[k]| <= 3)
    && Evolved(itens, t, cfg, st, s, tr.h) && tr.h.inds[|tr.h.pops|] == tr.last
    && tr.h.marks[0] == DrawEnd(itens, st, s, pos)
    && Scorable(itens, tr.last, tr.final) && 0 <= tr.k < |tr.last| && tr.chosen == tr.final[tr.k]
    && FirstLeast(ScoresOf(itens, t, cfg, tr.last, tr.final), JKey) == ScoresOf(itens, t, cfg, tr.last, tr.final)[tr.k]
    && IsLeast(itens, t, cfg, tr.final, tr.chosen)
    && tr.menu == ScaleToKcalSpec(itens, t.kcal, 0.8, 1.8, tr.chosen)
    && ValidMenu(tr.menu, |itens|)
    && out.fitness == Evaluate(itens, t, cfg, tr.menu)
    && out.refeicoes == Describe(itens, tr.menu)
    && |tr.hist| == Max(0, st.ger) && Recorded(itens, t, cfg, tr.hist, tr.h)
    && out.historico == Drop(tr.hist, -10)
    && (if st.ger >= 1 then tr.h.pops[0] else tr.final) == InitialDraw(itens, st, s, pos)
  }

  /** Everything after the catalogue is loaded. */
  method Run(itens: seq<FoodItem>, t: Targets, cfg: Config, st: Settings, rng: Rng)
    returns (r: Result<Output, Failure>, ghost tr: Trace)
    requires |itens| > 0
    modifies rng
    ensures r.Err? <==> st.popSize <= 0 || (st.ger >= 1 && SampleFails(st.popSize, st.elit))
    ensures r.Err? ==> r.error == if st.popSize <= 0 then EmptyPopulation else SampleTooLarge
    ensures r.Ok? ==> Outcome(itens, t, cfg, st, rng.stream, old(rng.pos), r.value, tr)
  {
    tr := NoTrace;
    var ev, slot, h := Evolve(itens, t, cfg, st, rng);
    if ev.Err? {
      return Err(ev.error), tr;
    }
    var pop := ev.value.0;
    var hist := ev.value.1;
    if pop == [] {
      return Err(EmptyPopulation), tr;
    }
    ghost var final := Population(pop, slot);
    var fit, refeicoes, chosen, menu, k := Finish(itens, t, cfg, pop, Max(0, st.nRef), slot, final);
    tr := Trace(h, hist, final, pop, chosen, k, menu);
    r := Ok(Output(fit, refeicoes, Drop(hist, -10)));
  }

  /** `gerar_cardapio(targets, params)`: seeding, reading the settings and the
      table, then `Run`. */
  method GenerateMenu(t: Targets, p: Params, table: string -> seq<Row>, streams: int -> (nat -> nat))
    returns (r: Result<Output, Failure>, ghost tr: Trace)
    ensures r.Err? <==> ExpectedFailure(p, table).Some?
    ensures r.Err? ==> r.error == ExpectedFailure(p, table).value
    ensures r.Ok? ==> (p.tabelaCsv.Some? &&
      Outcome(Load(table(p.tabelaCsv.value)), t, ConfigOf(p), SettingsOf(p), streams(Get(p.seed, 42)), 0, r.value, tr))
  {
    tr := NoTrace;
    var rng := new Rng(streams(Get(p.seed, 42)));
    var st := SettingsOf(p);
    var cfg := ConfigOf(p);
    if p.tabelaCsv.None? || p.tabelaCsv.value == [] {
      return Err(MissingTable), tr;
    }
    var itens := LoadCatalog(table(p.tabelaCsv.value));
    if itens == [] {
      return Err(EmptyTable), tr;
    }
    r, tr := Run(itens, t, cfg, st, rng);
  }
}
