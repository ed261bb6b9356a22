/** The optimiser's chromosome (assets/genetic_module/genetic_module.py:387-392).
    A gene is an (item index, grams) pair, a meal a mutable list of genes, an
    individual (one day's menu) a list of meals.  Meals are heap arrays, so
    that two individuals can share a meal the way Python lists share their
    inner lists after slicing; `Contents` reads the genes an individual holds.
    The optimiser always passes `itens_idx = list(range(len(itens)))`, so a
    gene's index is the catalogue position of its item. */
module Menu {

  datatype Gene = Gene(idx: int, portion: int)

  type Meal = array<Gene>

  type Individual = seq<Meal>

  /** The genes of every meal, read from the heap. */
  function Contents(ind: Individual): (r: seq<seq<Gene>>)
    reads ind
    ensures |r| == |ind|
    ensures forall k :: 0 <= k < |ind| ==> r[k] == ind[k][..]
  {
    seq(|ind|, k reads ind requires 0 <= k < |ind| => ind[k][..])
  }

  /** Every gene names an item of a catalogue of `n` items. */
  predicate ValidMeal(meal: seq<Gene>, n: nat) {
    forall i :: 0 <= i < |meal| ==> 0 <= meal[i].idx < n
  }

  predicate ValidMenu(menu: seq<seq<Gene>>, n: nat) {
    forall k :: 0 <= k < |menu| ==> ValidMeal(menu[k], n)
  }

  /** Every portion lies in the range the portion clamp produces. */
  predicate PortionsInRange(meal: seq<Gene>) {
    forall i :: 0 <= i < |meal| ==> 20 <= meal[i].portion <= 250
  }

  /** Each meal is a separate list (no meal reachable twice from one day). */
  predicate Distinct(ind: Individual) {
    forall i, j :: 0 <= i < j < |ind| ==> ind[i] != ind[j]
  }

  /** Appending a meal appends its genes. */
  lemma ContentsSnoc(ind: Individual, meal: Meal)
    ensures Contents(ind + [meal]) == Contents(ind) + [meal[..]]
  {
    assert forall k :: 0 <= k < |ind| ==> (ind + [meal])[k] == ind[k];
  }
}
