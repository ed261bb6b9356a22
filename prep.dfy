/** The deterministic parts of the offline table builder
    assets/alimentos/prepara_dados.py: recognising the name, energy,
    protein, carbohydrate and fat columns of the raw table by their titles,
    cleaning a numeric cell before conversion, and the keyword classifiers
    `categorizar` and `restricao` that label each food. */
module PrepareData {
  import opened Common
  import opened Text

  // ---------------------------------------------------------------------------
  // Keyword tests
  // ---------------------------------------------------------------------------

  /** `w1 in n or w2 in n or ...`, evaluated left to right. */
  predicate AnyIn(n: string, ws: seq<string>)
    decreases |ws|
  {
    ws != [] && (Contains(n, ws[0]) || AnyIn(n, ws[1..]))
  }

  /** The chain of `or`s holds exactly when one of the keywords occurs. */
  lemma {:induction false} AnyInIff(n: string, ws: seq<string>)
    ensures AnyIn(n, ws) <==> exists i :: 0 <= i < |ws| && Contains(n, ws[i])
    decreases |ws|
  {
    if ws != [] {
      AnyInIff(n, ws[1..]);
      if exists i :: 0 <= i < |ws| && Contains(n, ws[i]) {
        var i :| 0 <= i < |ws| && Contains(n, ws[i]);
        if i > 0 {
          assert ws[1..][i - 1] == ws[i];
        }
      }
      if exists i :: 0 <= i < |ws[1..]| && Contains(n, ws[1..][i]) {
        var i :| 0 <= i < |ws[1..]| && Contains(n, ws[1..][i]);
        assert ws[i + 1] == ws[1..][i];
      }
    }
  }

  /** An `if`/`elif` chain read as data: each branch's result and keywords. */
  datatype Branch = Branch(result: string, words: seq<string>)

  /** Position of the first branch whose keywords occur in `n`, or the number
      of branches when none does (the `else`). */
  function FirstMatch(n: string, rules: seq<Branch>): (k: nat)
    ensures k <= |rules|
    ensures forall j :: 0 <= j < k ==> !AnyIn(n, rules[j].words)
    ensures k < |rules| ==> AnyIn(n, rules[k].words)
    decreases |rules|
  {
    if rules == [] then 0
    else if AnyIn(n, rules[0].words) then 0
    else 1 + FirstMatch(n, rules[1..])
  }

  /** The label of the first matching branch, `default` when none matches. */
  function Classify(n: string, rules: seq<Branch>, default: string): string {
    var k := FirstMatch(n, rules);
    if k < |rules| then rules[k].result else default
  }

  // ---------------------------------------------------------------------------
  // categorizar
  // ---------------------------------------------------------------------------

  const CarbWords: seq<string> := ["arroz", "macarr", "pão", "pao", "massa"]
  const ProteinWords: seq<string> := ["carne", "frango", "peixe", "ovo"]
  const DairyWords: seq<string> := ["leite", "queijo", "iogurte"]
  const FruitWords: seq<string> := ["banana", "maçã", "maca", "laranja", "maça"]
  const VegetableWords: seq<string> := ["alface", "tomate", "cenoura", "verdura", "legume"]

  /** `categorizar(nome)` (assets/alimentos/prepara_dados.py:89-102). */
  function Categorize(nome: string): string {
    var n := Lower(nome);
    if AnyIn(n, CarbWords) then "carboidrato"
    else if AnyIn(n, ProteinWords) then "proteina"
    else if AnyIn(n, DairyWords) then "laticinio"
    else if AnyIn(n, FruitWords) then "fruta"
    else if AnyIn(n, VegetableWords) then "vegetal"
    else "outros"
  }

  /** The categories in the order they are tried. */
  const CategoryRules: seq<Branch> := [
    Branch("carboidrato", CarbWords), Branch("proteina", ProteinWords), Branch("laticinio", DairyWords),
    Branch("fruta", FruitWords), Branch("vegetal", VegetableWords)
  ]

  /** A name gets the category of the first group, in the order carbohydrate,
      protein, dairy, fruit, vegetable, one of whose keywords occurs in the
      lower-cased name, and `outros` when there is none. */
  lemma CategorizeIsFirstMatch(nome: string)
    ensures Categorize(nome) == Classify(Lower(nome), CategoryRules, "outros")
  {
    var n := Lower(nome);
    var rs := CategoryRules;
    assert rs[1..] == [rs[1], rs[2], rs[3], rs[4]];
    assert rs[1..][1..] == [rs[2], rs[3], rs[4]];
    assert rs[1..][1..][1..] == [rs[3], rs[4]];
    assert rs[1..][1..][1..][1..] == [rs[4]];
  }

  // ---------------------------------------------------------------------------
  // restricao
  // ---------------------------------------------------------------------------

  const LactoseWords: seq<string> := ["leite", "queijo", "iogurte"]
  const GlutenWords: seq<string> := ["trigo", "pão", "pao", "farinha"]
  const AnimalWords: seq<string> := ["carne", "frango", "peixe", "presunto"]

  /** `restricao(nome)` (assets/alimentos/prepara_dados.py:110-119). */
  function Restriction(nome: string): string {
    var n := Lower(nome);
    if AnyIn(n, LactoseWords) then "lactose"
    else if AnyIn(n, GlutenWords) then "gluten"
    else if AnyIn(n, AnimalWords) then "animal"
    else "nenhuma"
  }

  const RestrictionRules: seq<Branch> := [
    Branch("lactose", LactoseWords), Branch("gluten", GlutenWords), Branch("animal", AnimalWords)
  ]

  /** Lactose keywords are tried before gluten ones and gluten before animal
      ones; a name with none of them has no restriction. */
  lemma RestrictionIsFirstMatch(nome: string)
    ensures Restriction(nome) == Classify(Lower(nome), RestrictionRules, "nenhuma")
  {
    var rs := RestrictionRules;
    assert rs[1..] == [rs[1], rs[2]];
    assert rs[1..][1..] == [rs[2]];
  }

  /** A string with no upper-case letter is its own lower case. */
  lemma LowerOfNoUpper(s: string)
    requires forall i :: 0 <= i < |s| ==> !IsUpper(s[i])
    ensures Lower(s) == s
  {
  }

  /** "arroz com frango" mentions both rice and chicken and is filed under
      carbohydrate, the earlier group. */
  lemma RiceWithChicken(nome: string)
    requires nome == "arroz com frango"
    ensures Categorize(nome) == "carboidrato"
  {
    NoUpperInRice(nome);
    RiceInRiceWithChicken(nome);
    CarbFirst(nome);
  }

  lemma NoUpperInRice(nome: string)
    requires nome == "arroz com frango"
    ensures Lower(nome) == nome
  {
    LowerOfLowerCase(nome);
  }

  lemma RiceInRiceWithChicken(nome: string)
    requires nome == "arroz com frango"
    ensures Contains(nome, "arroz")
  {
    assert StartsWith(nome, "arroz");
  }

  /** "pão de queijo" mentions bread and cheese: its category is
      carbohydrate, and its restriction is lactose, tried before gluten. */
  lemma CheeseBread(nome: string)
    requires nome == "pão de queijo"
    ensures Categorize(nome) == "carboidrato"
    ensures Restriction(nome) == "lactose"
  {
    NoUpperInCheeseBread(nome);
    assert Contains(nome, "pão") by { assert nome[..3] == "pão"; }
    CheeseInCheeseBread(nome);
    CarbFirst(nome);
    LactoseFirst(nome);
  }

  lemma NoUpperInCheeseBread(nome: string)
    requires nome == "pão de queijo"
    ensures Lower(nome) == nome
  {
    assert forall i :: 0 <= i < |nome| ==> !IsUpper(nome[i]) by {
      forall i | 0 <= i < |nome| ensures !IsUpper(nome[i]) {
        assert nome[i] == 'ã' || 'a' <= nome[i] <= 'z' || nome[i] == ' ';
      }
    }
    LowerOfNoUpper(nome);
  }

  lemma CheeseInCheeseBread(nome: string)
    requires nome == "pão de queijo"
    ensures Contains(nome, "queijo")
  {
    assert OccursAt(nome, "queijo", 7);
    ContainsIff(nome, "queijo");
  }

  /** A name mentioning rice or bread is carbohydrate, whatever else it
      mentions. */
  lemma CarbFirst(nome: string)
    requires Lower(nome) == nome && (Contains(nome, "arroz") || Contains(nome, "pão"))
    ensures Categorize(nome) == "carboidrato"
  {
    assert Contains(nome, CarbWords[0]) || Contains(nome, CarbWords[2]);
    assert CarbWords[2..] == CarbWords[1..][1..];
  }

  /** A name mentioning cheese has the lactose restriction, whatever else it
      mentions. */
  lemma LactoseFirst(nome: string)
    requires Lower(nome) == nome && Contains(nome, "queijo")
    ensures Restriction(nome) == "lactose"
  {
    assert Contains(nome, LactoseWords[1]);
  }

  // ---------------------------------------------------------------------------
  // Column detection
  // ---------------------------------------------------------------------------

  /** The five columns the builder needs. */
  datatype Role = NameCol | KcalCol | ProtCol | CarbCol | FatCol

  /** Order of the `if`/`elif` branches that assign a role. */
  function RoleRank(r: Role): nat {
    match r
    case NameCol => 0
    case KcalCol => 1
    case ProtCol => 2
    case CarbCol => 3
    case FatCol => 4
  }

  /** The test of one branch on the lower-cased title `l`. */
  predicate Matches(r: Role, l: string) {
    match r
    case NameCol => Contains(l, "descri") && Contains(l, "alimento")
    case KcalCol => Contains(l, "energia")
    case ProtCol => Contains(l, "prote")
    case CarbCol => Contains(l, "carbo") && !Contains(l, "fibra")
    case FatCol => Contains(l, "lip")
  }

  /** The role a column title gets, by the first branch that matches
      (assets/alimentos/prepara_dados.py:35-45). */
  function RoleOf(col: string): (r: Option<Role>)
    ensures r.Some? ==> Matches(r.value, Lower(col))
    ensures r.Some? ==> forall q :: RoleRank(q) < RoleRank(r.value) ==> !Matches(q, Lower(col))
    ensures r.None? ==> forall q :: !Matches(q, Lower(col))
    ensures r == Some(CarbCol) ==> !Contains(Lower(col), "fibra")
  {
    var l := Lower(col);
    if Contains(l, "descri") && Contains(l, "alimento") then Some(NameCol)
    else if Contains(l, "energia") then Some(KcalCol)
    else if Contains(l, "prote") then Some(ProtCol)
    else if Contains(l, "carbo") && !Contains(l, "fibra") then Some(CarbCol)
    else if Contains(l, "lip") then Some(FatCol)
    else None
  }

  /** The role of every column, in order. */
  function RolesOf(cols: seq<string>): (rs: seq<Option<Role>>)
    ensures |rs| == |cols|
    ensures forall i :: 0 <= i < |cols| ==> rs[i] == RoleOf(cols[i])
  {
    seq(|cols|, i requires 0 <= i < |cols| => RoleOf(cols[i]))
  }

  /** Some column has role `r`. */
  predicate Detected(roles: seq<Option<Role>>, r: Role) {
    exists i :: 0 <= i < |roles| && roles[i] == Some(r)
  }

  /** Column `i` has role `r` and no column after it has. */
  predicate LastWith(roles: seq<Option<Role>>, r: Role, i: int) {
    0 <= i < |roles| && roles[i] == Some(r)
    && forall j :: i < j < |roles| ==> roles[j] != Some(r)
  }

  /** `found` holds, for each role seen in `roles`, the title of the last
      column of `cols` that has it, and nothing else. */
  ghost predicate Found(cols: seq<string>, roles: seq<Option<Role>>, found: map<Role, string>)
    requires |roles| <= |cols|
  {
    && (forall r :: r in found <==> Detected(roles, r))
    && (forall r :: r in found ==> exists i :: LastWith(roles, r, i) && found[r] == cols[i])
  }

  /** The detection loop: `found` plays the five `col_*` variables (a role
      absent from it is `None`). Every column is looked at once, in order, and
      a later column with the same role replaces an earlier one, so each role
      ends up with the last column that has it. */
  method DetectColumns(cols: seq<string>) returns (found: map<Role, string>)
    ensures forall r :: r in found <==> Detected(RolesOf(cols), r)
    ensures forall r :: r in found ==> exists i :: LastWith(RolesOf(cols), r, i) && found[r] == cols[i]
  {
    ghost var roles := RolesOf(cols);
    found := map[];
    for n := 0 to |cols|
      invariant Found(cols, roles[..n], found)
    {
      var role := RoleOf(cols[n]);
      SnocColumn(cols, roles[..n], roles[n], found);
      assert roles[..n] + [roles[n]] == roles[..n + 1];
      if role.Some? {
        found := found[role.value := cols[n]];
      }
    }
    assert roles[..|cols|] == roles;
  }

  /** One more column: the roles found so far stay, and the column's own role,
      if any, now points at it. */
  lemma SnocColumn(cols: seq<string>, pre: seq<Option<Role>>, role: Option<Role>, found: map<Role, string>)
    requires |pre| < |cols| && Found(cols, pre, found)
    ensures Found(cols, pre + [role], if role.Some? then found[role.value := cols[|pre|]] else found)
  {
    var n := |pre|;
    var post := pre + [role];
    var f := if role.Some? then found[role.value := cols[n]] else found;
    forall r ensures r in f <==> Detected(post, r) {
      if Detected(pre, r) {
        var i :| 0 <= i < |pre| && pre[i] == Some(r);
        assert post[i] == Some(r);
      }
      if Detected(post, r) && role != Some(r) {
        var i :| 0 <= i < |post| && post[i] == Some(r);
        assert i < n && pre[i] == Some(r);
      }
      if role == Some(r) {
        assert post[n] == Some(r);
      }
    }
    forall r | r in f ensures exists i :: LastWith(post, r, i) && f[r] == cols[i] {
      if role == Some(r) {
        assert LastWith(post, r, n);
      } else {
        var i :| LastWith(pre, r, i) && found[r] == cols[i];
        assert LastWith(post, r, i);
      }
    }
  }

  /** The five column titles the rest of the builder keeps. */
  datatype Columns = Columns(nome: string, kcal: string, prot: string, carb: string, gord: string)

  /** Detection followed by the check that every role was found: the
      `ValueError` when one is missing (assets/alimentos/prepara_dados.py:55-57). */
  method SelectColumns(cols: seq<string>) returns (r: Result<Columns, string>)
    ensures r.Err? <==> exists q :: !Detected(RolesOf(cols), q)
    ensures r.Ok? ==> exists i :: LastWith(RolesOf(cols), NameCol, i) && cols[i] == r.value.nome
    ensures r.Ok? ==> exists i :: LastWith(RolesOf(cols), KcalCol, i) && cols[i] == r.value.kcal
    ensures r.Ok? ==> exists i :: LastWith(RolesOf(cols), ProtCol, i) && cols[i] == r.value.prot
    ensures r.Ok? ==> exists i :: LastWith(RolesOf(cols), CarbCol, i) && cols[i] == r.value.carb
    ensures r.Ok? ==> exists i :: LastWith(RolesOf(cols), FatCol, i) && cols[i] == r.value.gord
  {
    var found := DetectColumns(cols);
    AllFound(RolesOf(cols), found);
    if NameCol in found && KcalCol in found && ProtCol in found && CarbCol in found && FatCol in found {
      r := Ok(Columns(found[NameCol], found[KcalCol], found[ProtCol], found[CarbCol], found[FatCol]));
    } else {
      r := Err("Não foi possível identificar todas as colunas necessárias. Verifique os nomes no arquivo TACO.");
    }
  }

  /** The five membership tests cover every role. */
  lemma AllFound(roles: seq<Option<Role>>, found: map<Role, string>)
    requires forall r :: r in found <==> Detected(roles, r)
    ensures (NameCol in found && KcalCol in found && ProtCol in found && CarbCol in found && FatCol in found)
      <==> forall q :: Detected(roles, q)
  {
    if NameCol in found && KcalCol in found && ProtCol in found && CarbCol in found && FatCol in found {
      forall q ensures Detected(roles, q) {
        match q
        case NameCol =>
        case KcalCol =>
        case ProtCol =>
        case CarbCol =>
        case FatCol =>
      }
    }
  }

  // ---------------------------------------------------------------------------
  // Numeric clean-up
  // ---------------------------------------------------------------------------

  /** A decimal comma becomes a point, a trace mark (`Tr` or `tr`) becomes 0,
      and surrounding whitespace goes (assets/alimentos/prepara_dados.py:71-78). */
  function CleanNumber(s: string): (r: string)
    ensures ',' !in r
    ensures !Contains(r, "Tr") && !Contains(r, "tr")
  {
    var a := Replace(s, ",", ".");
    var b := Replace(a, "Tr", "0");
    var c := Replace(b, "tr", "0");
    CleanSteps(s, a, b, c);
    StripKeepsOut(c, "Tr");
    StripKeepsOut(c, "tr");
    StripKeepsChar(c, ',');
    Strip(c)
  }

  /** What each replacement leaves out. */
  lemma CleanSteps(s: string, a: string, b: string, c: string)
    requires a == Replace(s, ",", ".") && b == Replace(a, "Tr", "0") && c == Replace(b, "tr", "0")
    ensures ',' !in c && !Contains(c, "Tr") && !Contains(c, "tr")
  {
    ReplaceCharSpec(s, ',', '.');
    ReplaceKeepsChar(a, "Tr", "0", ',');
    ReplaceKeepsChar(b, "tr", "0", ',');
    ReplacePairRemoves(a, "Tr", "0");
    ReplaceKeepsPairOut(b, "tr", "0", "Tr");
    ReplacePairRemoves(b, "tr", "0");
  }

  /** The clean-up then `pd.to_numeric(..., errors="coerce")`: `None` plays
      the NaN of a cell that does not read as a number. */
  function CellValue(s: string): Option<real> {
    ParseDecimal(CleanNumber(s))
  }

  /** A trace mark reads as zero. */
  lemma TraceIsZero(s: string)
    requires s == "Tr"
    ensures CleanNumber(s) == "0" && CellValue(s) == Some(0.0)
  {
    ReplaceAbsent(s, ",", ".");
    ReplaceWhole(s, "0");
    ReadsZero("0");
  }

  /** A pattern that is the whole string is replaced by the replacement. */
  lemma ReplaceWhole(s: string, rep: string)
    requires |s| > 0
    ensures Replace(s, s, rep) == rep
  {
    assert StartsWith(s, s);
    assert s[|s|..] == [];
  }

  /** "0" survives the rest of the clean-up and reads as zero. */
  lemma ReadsZero(z: string)
    requires z == "0"
    ensures Strip(Replace(z, "tr", "0")) == z && ParseDecimal(z) == Some(0.0)
  {
    ReplaceAbsent(z, "tr", "0");
    DigitIsPlain(z[0]);
    StripNoSpace(z);
    UnsignedDecimalOfDigits(z);
    ParseUnsigned(z, 0.0);
  }

  /** A decimal comma becomes a point: "12,5" is cleaned to "12.5". */
  lemma CommaIsPoint(s: string)
    requires s == "12,5"
    ensures CleanNumber(s) == "12.5"
  {
    var t := "12.5";
    CommaBecomesPoint(s, t);
    PointSurvives(t);
  }

  lemma CommaBecomesPoint(s: string, t: string)
    requires s == "12,5" && t == "12.5"
    ensures Replace(s, ",", ".") == t
  {
    ReplaceCharSpec(s, ',', '.');
  }

  lemma PointSurvives(t: string)
    requires t == "12.5"
    ensures Strip(Replace(Replace(t, "Tr", "0"), "tr", "0")) == t
  {
    assert 'T' !in t && 't' !in t;
    assert !IsSpace(t[0]) && !IsSpace(t[|t| - 1]);
    NoTraceMark(t);
  }

  /** Text with no `T`/`t` and no whitespace at its ends is left as it is by
      the trace replacements and the strip. */
  lemma NoTraceMark(t: string)
    requires 'T' !in t && 't' !in t
    requires t != [] && !IsSpace(t[0]) && !IsSpace(t[|t| - 1])
    ensures Strip(Replace(Replace(t, "Tr", "0"), "tr", "0")) == t
  {
    ReplaceAbsent(t, "Tr", "0");
    ReplaceAbsent(t, "tr", "0");
    StripNoSpace(t);
  }

  /** A pattern whose first character does not occur is not replaced. */
  lemma {:induction false} ReplaceAbsent(s: string, pat: string, rep: string)
    requires |pat| > 0 && pat[0] !in s
    ensures Replace(s, pat, rep) == s
    decreases |s|
  {
    if s != [] {
      assert !StartsWith(s, pat) by { assert s[0] != pat[0]; }
      ReplaceAbsent(s[1..], pat, rep);
    }
  }

  /** Replacing a pattern by text without `c` adds no `c`. */
  lemma {:induction false} ReplaceKeepsChar(s: string, pat: string, rep: string, c: char)
    requires |pat| > 0 && c !in s && c !in rep
    ensures c !in Replace(s, pat, rep)
    decreases |s|
  {
    if StartsWith(s, pat) {
      ReplaceKeepsChar(s[|pat|..], pat, rep, c);
    } else if s != [] {
      ReplaceKeepsChar(s[1..], pat, rep, c);
    }
  }

  /** Replacing a two-letter pattern by text that shares no letter with
      another two-letter pair `q` creates no `q`. */
  lemma {:induction false} ReplaceKeepsPairOut(s: string, pat: string, rep: string, q: string)
    requires |pat| == 2 && |q| == 2 && |rep| >= 1
    requires q[0] !in rep && q[1] !in rep
    requires !Contains(s, q)
    ensures !Contains(Replace(s, pat, rep), q)
    decreases |s|
  {
    if StartsWith(s, pat) {
      assert s[2..] == s[1..][1..];
      assert !Contains(s[2..], q) by { assert !Contains(s[1..], q); }
      ReplaceKeepsPairOut(s[2..], pat, rep, q);
      NoPatternAcross(rep, Replace(s[2..], pat, rep), q);
    } else if s != [] {
      var r := Replace(s, pat, rep);
      var t := Replace(s[1..], pat, rep);
      ReplaceKeepsPairOut(s[1..], pat, rep, q);
      assert r == [s[0]] + t;
      assert r[1..] == t;
      assert !StartsWith(r, q) by {
        if StartsWith(s[1..], pat) {
          assert t[0] == rep[0];
          assert rep[0] in rep;
        } else if s[1..] != [] {
          ReplaceHead(s[1..], pat, rep);
          assert s[..2] == [s[0], s[1]];
        }
      }
    }
  }

  /** What `strip` keeps is a slice, so it holds no pattern its input lacks. */
  lemma StripKeepsOut(s: string, pat: string)
    requires !Contains(s, pat)
    ensures !Contains(Strip(s), pat)
  {
    StripSlice(s);
    var i := |s| - |TrimStart(s)|;
    var t := Strip(s);
    if Contains(t, pat) {
      SliceKeeps(s, i, t, pat);
    }
  }

  /** A pattern found in a slice is found in the whole string. */
  lemma SliceKeeps(s: string, i: nat, t: string, pat: string)
    requires i + |t| <= |s| && t == s[i..i + |t|]
    requires Contains(t, pat)
    ensures Contains(s, pat)
  {
    ContainsIff(t, pat);
    var k :| OccursAt(t, pat, k);
    assert 0 <= k && k + |pat| <= |t|;
    forall j | 0 <= j < |pat| ensures s[i + k..i + k + |pat|][j] == pat[j] {
      assert t[k..k + |pat|][j] == t[k + j] == pat[j];
    }
    assert OccursAt(s, pat, i + k);
    ContainsIff(s, pat);
  }
}
