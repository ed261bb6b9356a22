/** The row rule of the food-table loader `carregar_tabela_alimentos`
    (assets/genetic_module/genetic_module.py:58-98).  A CSV row is the map
    `csv.DictReader` yields (a missing cell is a missing key); reading the file
    itself is not modelled. */
module Catalog {
  import opened Common
  import opened Text
  import opened Foods

  type Row = map<string, string>

  /** A cell that Python's `or` skips: absent (None) or the empty string. */
  predicate EmptyCell(row: Row, k: string) {
    k !in row || row[k] == []
  }

  /** `keys[i]` is the first alias with a non-empty cell. */
  predicate FirstAliasAt(row: Row, keys: seq<string>, i: int) {
    0 <= i < |keys| && !EmptyCell(row, keys[i]) && forall j :: 0 <= j < i ==> EmptyCell(row, keys[j])
  }

  /** `r.get(k1) or r.get(k2) or ...`: the value of the first alias whose cell
      is present and non-empty. */
  function FirstNonEmpty(row: Row, keys: seq<string>): (r: Option<string>)
    ensures r.Some? ==> r.value != []
    ensures r.Some? ==> exists i :: FirstAliasAt(row, keys, i) && row[keys[i]] == r.value
    ensures r.None? ==> forall j :: 0 <= j < |keys| ==> EmptyCell(row, keys[j])
  {
    if keys == [] then None
    else if !EmptyCell(row, keys[0]) then
      assert FirstAliasAt(row, keys, 0);
      Some(row[keys[0]])
    else
      var rest := FirstNonEmpty(row, keys[1..]);
      assert forall j :: 1 <= j < |keys| ==> keys[j] == keys[1..][j - 1];
      if rest.Some? then
        var i :| FirstAliasAt(row, keys[1..], i) && row[keys[1..][i]] == rest.value;
        assert keys[i + 1] == keys[1..][i];
        assert FirstAliasAt(row, keys, i + 1);
        rest
      else
        rest
  }

  /** `float(first alias or 0)`: a missing field reads as 0, a present one must
      parse as a number. */
  function NumberField(row: Row, keys: seq<string>): (r: Option<real>)
    ensures FirstNonEmpty(row, keys).None? ==> r == Some(0.0)
    ensures FirstNonEmpty(row, keys).Some? ==> r == ParseDecimal(FirstNonEmpty(row, keys).value)
  {
    match FirstNonEmpty(row, keys)
    case None => Some(0.0)
    case Some(v) => ParseDecimal(v)
  }

  datatype Numbers = Numbers(kcal: real, carb: real, prot: real, fat: real, price: real)

  /** The five numeric fields; `None` when any of them fails `float()`. */
  function RowNumbers(row: Row): Option<Numbers>
  {
    var k := NumberField(row, ["kcal_100g", "kcal", "energia_kcal"]);
    var c := NumberField(row, ["carb_100g", "carboidrato_g"]);
    var p := NumberField(row, ["prot_100g", "proteina_g"]);
    var g := NumberField(row, ["gord_100g", "lipidio_g"]);
    var pr := NumberField(row, ["preco_100g"]);
    if k.Some? && c.Some? && p.Some? && g.Some? && pr.Some? then
      Some(Numbers(k.value, c.value, p.value, g.value, pr.value))
    else None
  }

  /** `tuple(tags.split("|")) if r.get("tags") else ()`. */
  function RowTags(row: Row): seq<string>
  {
    if "tags" in row && row["tags"] != [] then Split(row["tags"], '|') else []
  }

  /** The `FoodItem` the loader builds from a row, `None` when a numeric field
      does not parse. `kept` is the number of items accepted so far, which
      supplies the default id. */
  function ParseRow(row: Row, kept: nat): Option<FoodItem>
  {
    match RowNumbers(row)
    case None => None
    case Some(n) =>
      var id := match FirstNonEmpty(row, ["id", "ID", "codigo"])
                case Some(v) => v
                case None => IntToString(kept + 1);
      var nome := match FirstNonEmpty(row, ["nome", "alimento"])
                  case Some(v) => v
                  case None => "item";
      Some(FoodItem(id, nome, n.kcal, n.carb, n.prot, n.fat, n.price, RowTags(row)))
  }

  /** Energy above zero and at least one non-zero macro. */
  predicate Acceptable(it: FoodItem) {
    it.kcal > 0.0 && (it.carb > 0.0 || it.prot > 0.0 || it.fat > 0.0)
  }

  /** Whether the loader keeps a row; this never depends on the rows before it. */
  predicate Keeps(row: Row) {
    match RowNumbers(row)
    case None => false
    case Some(n) => n.kcal > 0.0 && (n.carb > 0.0 || n.prot > 0.0 || n.fat > 0.0)
  }

  lemma KeepsMeansAccepted(row: Row, kept: nat)
    ensures Keeps(row) <==> ParseRow(row, kept).Some? && Acceptable(ParseRow(row, kept).value)
  {
  }

  /** One step of the loader: the catalogue so far and the next row. */
  function LoadRow(prev: seq<FoodItem>, r: Row): seq<FoodItem>
  {
    match ParseRow(r, |prev|)
    case Some(it) => if Acceptable(it) then prev + [it] else prev
    case None => prev
  }

  /** The catalogue after reading `rows` in order. */
  function Load(rows: seq<Row>): seq<FoodItem>
  {
    if rows == [] then [] else LoadRow(Load(rows[..|rows| - 1]), rows[|rows| - 1])
  }

  lemma LoadSnoc(rows: seq<Row>, r: Row)
    ensures Load(rows + [r]) == LoadRow(Load(rows), r)
  {
    assert (rows + [r])[..|rows|] == rows;
  }

  /** The loading loop of `carregar_tabela_alimentos`. */
  method LoadCatalog(rows: seq<Row>) returns (itens: seq<FoodItem>)
    ensures itens == Load(rows)
  {
    itens := [];
    var i := 0;
    while i < |rows|
      invariant 0 <= i <= |rows|
      invariant itens == Load(rows[..i])
    {
      assert rows[..i + 1][..i] == rows[..i];
      var r := ParseRow(rows[i], |itens|);
      if r.Some? && Acceptable(r.value) {
        itens := itens + [r.value];
      }
      i := i + 1;
    }
    assert rows[..|rows|] == rows;
  }

  /** Every item the loader keeps has positive energy and some macro. */
  lemma {:induction false} LoadAccepted(rows: seq<Row>)
    ensures forall it :: it in Load(rows) ==> Acceptable(it)
    ensures |Load(rows)| <= |rows|
  {
    if rows != [] {
      LoadAccepted(rows[..|rows| - 1]);
    }
  }

  /** A row the loader drops, for whatever reason, leaves the rest of the
      catalogue exactly as if it were absent: same items, same default ids. */
  lemma DroppedRowIsInvisible(pre: seq<Row>, r: Row, post: seq<Row>)
    requires !Keeps(r)
    ensures Load(pre + [r] + post) == Load(pre + post)
  {
    forall prev: seq<FoodItem> ensures LoadRow(prev, r) == prev {
      KeepsMeansAccepted(r, |prev|);
    }
    LoadIsFold(pre + [r] + post);
    LoadIsFold(pre + post);
    FoldSkips(pre, r, post, LoadRow);
  }

  /** Reading rows with any step function, oldest row first. */
  function Fold(rows: seq<Row>, step: (seq<FoodItem>, Row) -> seq<FoodItem>): seq<FoodItem>
  {
    if rows == [] then [] else step(Fold(rows[..|rows| - 1], step), rows[|rows| - 1])
  }

  lemma {:induction false} LoadIsFold(rows: seq<Row>)
    ensures Load(rows) == Fold(rows, LoadRow)
  {
    if rows != [] {
      LoadIsFold(rows[..|rows| - 1]);
    }
  }

  /** A row on which the step changes nothing can be left out. */
  lemma {:induction false} FoldSkips(pre: seq<Row>, r: Row, post: seq<Row>, step: (seq<FoodItem>, Row) -> seq<FoodItem>)
    requires forall prev :: step(prev, r) == prev
    ensures Fold(pre + [r] + post, step) == Fold(pre + post, step)
    decreases |post|
  {
    if post == [] {
      assert pre + [r] + post == pre + [r];
      assert (pre + [r])[..|pre|] == pre;
      assert pre + post == pre;
    } else {
      var last := post[|post| - 1];
      var init := post[..|post| - 1];
      FoldSkips(pre, r, init, step);
      var a, b := pre + [r] + post, pre + post;
      assert a[..|a| - 1] == pre + [r] + init && a[|a| - 1] == last;
      assert b[..|b| - 1] == pre + init && b[|b| - 1] == last;
    }
  }

  /** A row is kept exactly when its numbers parse, its energy is positive and
      some macro is positive; kept rows are appended in order. */
  lemma LoadStep(rows: seq<Row>, r: Row)
    ensures Keeps(r) ==> Load(rows + [r]) == Load(rows) + [ParseRow(r, |Load(rows)|).value]
    ensures !Keeps(r) ==> Load(rows + [r]) == Load(rows)
  {
    LoadSnoc(rows, r);
    KeepsMeansAccepted(r, |Load(rows)|);
  }
}
