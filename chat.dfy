/** The conversation of assets/chatbot/chatbot_engine.py: a `ChatState`
    (stage, collected answers, finished flag) that `processar_mensagem` moves
    through the questions objective, weight, activity, cholesterol, number of
    meals, restrictions and budget, then hands the answers to the plan
    builder.  The message texts are named by the `Reply` constructors. */
module Chat {
  import opened Common
  import opened Text
  import P = Params
  import D = Driver
  import Ev = Evolution
  import Core
  import M = Macros
  import C = Catalog

  // ---------------------------------------------------------------------------
  // Parsers
  // ---------------------------------------------------------------------------

  const LoseWords: seq<string> := ["0", "emagrecer", "perder peso", "perda de peso"]
  const KeepWords: seq<string> := ["1", "manter", "manutenção", "manter peso", "manutencao"]
  const GainWords: seq<string> := ["2", "ganhar", "ganhar massa", "hipercalorica", "hipercalórica"]

  /** `_interpretar_objetivo`: the answer trimmed and lower-cased, looked up in
      the three synonym lists. */
  function InterpretObjective(msg: string): (r: Option<int>)
    ensures r.Some? ==> 0 <= r.value <= 2
  {
    var m := Lower(Strip(msg));
    if m in LoseWords then Some(0)
    else if m in KeepWords then Some(1)
    else if m in GainWords then Some(2)
    else None
  }

  /** No word is in two of the synonym lists. */
  lemma SynonymsDisjoint()
    ensures forall w :: w in LoseWords ==> w !in KeepWords && w !in GainWords
    ensures forall w :: w in KeepWords ==> w !in GainWords
  {
  }

  /** An answer names at most one objective, and the objective is found
      exactly when the trimmed, lower-cased answer is listed. */
  lemma InterpretObjectiveIff(msg: string)
    ensures InterpretObjective(msg) == Some(0) <==> Lower(Strip(msg)) in LoseWords
    ensures InterpretObjective(msg) == Some(1) <==> Lower(Strip(msg)) in KeepWords
    ensures InterpretObjective(msg) == Some(2) <==> Lower(Strip(msg)) in GainWords
    ensures InterpretObjective(msg).None? <==>
      Lower(Strip(msg)) !in LoseWords && Lower(Strip(msg)) !in KeepWords && Lower(Strip(msg)) !in GainWords
  {
    SynonymsDisjoint();
  }

  /** `_parse_float`: decimal commas become points, then `float()`. */
  function ParseFloat(msg: string): Option<real> {
    ParseDecimal(Replace(msg, ",", "."))
  }

  /** A decimal comma reads like a decimal point, and an answer without
      commas is read as it is. */
  lemma ParseFloatComma(a: string, b: string)
    requires ',' !in a && ',' !in b
    ensures ParseFloat(a + "," + b) == ParseDecimal(a + "." + b)
    ensures ParseFloat(a) == ParseDecimal(a)
  {
    var s := a + "," + b;
    ReplaceCharSpec(s, ',', '.');
    var t := Replace(s, [','], ['.']);
    assert t == a + "." + b by {
      forall k | 0 <= k < |s| ensures t[k] == (a + "." + b)[k] {
        if k < |a| {
          assert s[k] == a[k];
        } else if k > |a| {
          assert s[k] == b[k - |a| - 1];
        }
      }
    }
    NoCommaUnchanged(a);
  }

  lemma {:induction false} NoCommaUnchanged(s: string)
    requires ',' !in s
    ensures Replace(s, ",", ".") == s
    decreases |s|
  {
    if s != [] {
      assert !StartsWith(s, ",") by { assert s[..1][0] == s[0]; }
      NoCommaUnchanged(s[1..]);
    }
  }

  const NoneWords: seq<string> := ["nenhuma", "nao", "não", "sem", "sem restricoes", "sem restrições"]

  /** `[p.strip() for p in pieces if p.strip()]`. */
  function Kept(ps: seq<string>): seq<string> {
    if ps == [] then []
    else (if Strip(ps[0]) != [] then [Strip(ps[0])] else []) + Kept(ps[1..])
  }

  /** A piece is kept, stripped, exactly when it is not blank. */
  lemma {:induction false} KeptIff(ps: seq<string>)
    ensures forall x :: x in Kept(ps) ==> x != [] && exists p :: p in ps && Strip(p) == x
    ensures forall p :: p in ps && Strip(p) != [] ==> Strip(p) in Kept(ps)
  {
    if ps != [] {
      KeptIff(ps[1..]);
      forall x | x in Kept(ps) ensures x != [] && exists p :: p in ps && Strip(p) == x {
        if x !in Kept(ps[1..]) {
          assert Strip(ps[0]) == x;
        } else {
          var p :| p in ps[1..] && Strip(p) == x;
          assert p in ps;
        }
      }
      forall p | p in ps && Strip(p) != [] ensures Strip(p) in Kept(ps) {
        if p != ps[0] {
          assert p in ps[1..];
        }
      }
    }
  }

  /** `_parse_restricoes`: no restriction for the listed "none" answers or
      when no piece is left, otherwise `{"banidos": pieces}`. */
  function ParseRestrictions(msg: string): map<string, seq<string>> {
    RestrictionsOf(Lower(Strip(msg)))
  }

  /** The restriction map of an answer already lower-cased and stripped. */
  function RestrictionsOf(m: string): map<string, seq<string>> {
    if m in NoneWords then map[]
    else
      var itens := Kept(Split(m, ','));
      if itens == [] then map[] else map["banidos" := itens]
  }

  /** The banned words are the non-blank comma-separated pieces of the
      lower-cased answer, each stripped, non-empty and free of commas; a
      "none" answer bans nothing. */
  lemma ParseRestrictionsLaws(msg: string)
    ensures Lower(Strip(msg)) in NoneWords ==> ParseRestrictions(msg) == map[]
    ensures var r := ParseRestrictions(msg);
      r == map[] || (r.Keys == {"banidos"} && |r["banidos"]| >= 1)
    ensures var r := ParseRestrictions(msg); var ps := Split(Lower(Strip(msg)), ',');
      "banidos" in r ==>
        (forall x :: x in r["banidos"] ==> x != [] && ',' !in x && Strip(x) == x && exists p :: p in ps && Strip(p) == x)
        && (forall p :: p in ps && Strip(p) != [] ==> Strip(p) in r["banidos"])
  {
    RestrictionsOfLaws(Lower(Strip(msg)));
  }

  lemma RestrictionsOfLaws(m: string)
    ensures m in NoneWords ==> RestrictionsOf(m) == map[]
    ensures var r := RestrictionsOf(m);
      r == map[] || (r.Keys == {"banidos"} && |r["banidos"]| >= 1)
    ensures var r := RestrictionsOf(m); var ps := Split(m, ',');
      "banidos" in r ==>
        (forall x :: x in r["banidos"] ==> x != [] && ',' !in x && Strip(x) == x && exists p :: p in ps && Strip(p) == x)
        && (forall p :: p in ps && Strip(p) != [] ==> Strip(p) in r["banidos"])
  {
    var ps := Split(m, ',');
    KeptIff(ps);
    KeptClean(ps);
  }

  /** The kept pieces of a comma split are stripped and hold no comma. */
  lemma KeptClean(ps: seq<string>)
    requires forall p :: p in ps ==> ',' !in p
    ensures forall x :: x in Kept(ps) ==> ',' !in x && Strip(x) == x
  {
    KeptIff(ps);
    forall x | x in Kept(ps) ensures ',' !in x && Strip(x) == x {
      var p :| p in ps && Strip(p) == x;
      StripKeepsChar(p, ',');
      StripSpec(p);
    }
  }

  // ---------------------------------------------------------------------------
  // _cardapio_em_texto
  // ---------------------------------------------------------------------------

  function MealHeader(i: int): string {
    "Refeição " + IntToString(i) + ":"
  }

  function ItemLine(it: D.OutItem): string {
    " - " + it.nome + " — " + IntToString(it.porcao) + " g"
  }

  /** The item lines of a meal, in order. */
  function ItemLines(items: seq<D.OutItem>): (r: seq<string>)
    ensures |r| == |items|
  {
    if items == [] then [] else ItemLines(items[..|items| - 1]) + [ItemLine(items[|items| - 1])]
  }

  /** Meal `i` (counted from 1): its header, its items and an empty line. */
  function MealLines(i: int, meal: seq<D.OutItem>): seq<string> {
    [MealHeader(i)] + ItemLines(meal) + [""]
  }

  /** The lines of the menu, meal by meal. */
  function MenuLines(cardapio: seq<seq<D.OutItem>>): seq<string> {
    if cardapio == [] then []
    else MenuLines(cardapio[..|cardapio| - 1]) + MealLines(|cardapio|, cardapio[|cardapio| - 1])
  }

  /** The lines of one meal appended to `linhas`, item by item. */
  method AppendMeal(linhas: seq<string>, i: int, meal: seq<D.OutItem>) returns (out: seq<string>)
    ensures out == linhas + MealLines(i, meal)
  {
    var items: seq<string> := [];
    var j := 0;
    while j < |meal|
      invariant 0 <= j <= |meal|
      invariant items == ItemLines(meal[..j])
    {
      assert meal[..j + 1][..j] == meal[..j];
      items := items + [ItemLine(meal[j])];
      j := j + 1;
    }
    assert meal[..j] == meal;
    out := linhas + ([MealHeader(i)] + items + [""]);
  }

  /** `_cardapio_em_texto(cardapio)`. */
  method MenuText(cardapio: seq<seq<D.OutItem>>) returns (text: string)
    ensures text == Join(MenuLines(cardapio), "\n")
  {
    var linhas: seq<string> := [];
    var i := 0;
    while i < |cardapio|
      invariant 0 <= i <= |cardapio|
      invariant linhas == MenuLines(cardapio[..i])
    {
      linhas := AppendMeal(linhas, i + 1, cardapio[i]);
      assert cardapio[..i + 1][..i] == cardapio[..i];
      i := i + 1;
    }
    assert cardapio[..i] == cardapio;
    text := Join(linhas, "\n");
  }

  /** One line per item plus a header and a blank line per meal. */
  function LineCount(cardapio: seq<seq<D.OutItem>>): nat {
    if cardapio == [] then 0 else LineCount(cardapio[..|cardapio| - 1]) + |cardapio[|cardapio| - 1]| + 2
  }

  lemma {:induction false} MenuLinesCount(cardapio: seq<seq<D.OutItem>>)
    ensures |MenuLines(cardapio)| == LineCount(cardapio)
    decreases |cardapio|
  {
    if cardapio != [] {
      MenuLinesCount(cardapio[..|cardapio| - 1]);
    }
  }

  lemma NoNewlineInNumber(n: int)
    ensures '\n' !in IntToString(n)
  {
    var ds := NatToDigits(if n < 0 then -n else n);
    assert forall k :: 0 <= k < |ds| ==> ds[k] != '\n';
  }

  /** No food name of the menu holds a line break. */
  predicate NamesOneLine(cardapio: seq<seq<D.OutItem>>) {
    forall i :: 0 <= i < |cardapio| ==> MealOneLine(cardapio[i])
  }

  predicate MealOneLine(items: seq<D.OutItem>) {
    forall k :: 0 <= k < |items| ==> '\n' !in items[k].nome
  }

  lemma {:induction false} ItemLinesNoNewline(items: seq<D.OutItem>)
    requires MealOneLine(items)
    ensures forall l :: l in ItemLines(items) ==> '\n' !in l
    decreases |items|
  {
    if items != [] {
      var n := |items|;
      ItemLinesNoNewline(items[..n - 1]);
      NoNewlineInNumber(items[n - 1].porcao);
    }
  }

  /** No line of the menu holds a line break when no name does. */
  lemma {:induction false} MenuLinesNoNewline(cardapio: seq<seq<D.OutItem>>)
    requires NamesOneLine(cardapio)
    ensures forall l :: l in MenuLines(cardapio) ==> '\n' !in l
    decreases |cardapio|
  {
    if cardapio != [] {
      var n := |cardapio|;
      var last := cardapio[n - 1];
      var front := cardapio[..n - 1];
      forall i | 0 <= i < |front| ensures MealOneLine(front[i]) {
        assert front[i] == cardapio[i];
      }
      MenuLinesNoNewline(front);
      NoNewlineInNumber(n);
      assert '\n' !in MealHeader(n);
      ItemLinesNoNewline(last);
    }
  }

  /** Splitting the text at line breaks gives back the lines, when no food
      name holds a line break. */
  lemma MenuTextLines(cardapio: seq<seq<D.OutItem>>)
    requires cardapio != [] && NamesOneLine(cardapio)
    ensures Split(Join(MenuLines(cardapio), "\n"), '\n') == MenuLines(cardapio)
  {
    MenuLinesNoNewline(cardapio);
    SplitJoin(MenuLines(cardapio), '\n');
  }

  // ---------------------------------------------------------------------------
  // ChatState
  // ---------------------------------------------------------------------------

  /** The stages `etapa` takes: `inicio`, the seven questions, `gerando`
      while the plan is built, and `fim` or `erro` after it. */
  datatype Stage = Inicio | Objetivo | Peso | Atividade | Colesterol | NRefeicoes | Restricoes | Orcamento
                 | Gerando | Fim | Erro

  /** The keys of `dados`: `objetivo`, `peso`, `atividade`, `colesterol`,
      `n_refeicoes`, `restricoes` and `orcamento_max`. */
  datatype Key = KObjetivo | KPeso | KAtividade | KColesterol | KNRefeicoes | KRestricoes | KOrcamento

  /** What `dados` stores: a number read as an int or a float, or a
      restriction dictionary. */
  datatype Value = IntValue(i: int) | RealValue(r: real) | RestrValue(m: map<string, seq<string>>)

  /** A `ChatState` as a value. */
  datatype Snapshot = Snapshot(etapa: Stage, dados: map<Key, Value>, terminou: bool)

  /** `ChatState(etapa="inicio", dados={})`. */
  const Fresh: Snapshot := Snapshot(Inicio, map[], false)

  class ChatState {
    var etapa: Stage
    var dados: map<Key, Value>
    var terminou: bool

    constructor ()
      ensures Value() == Fresh
    {
      etapa := Inicio;
      dados := map[];
      terminou := false;
    }

    function Value(): Snapshot
      reads this
    {
      Snapshot(etapa, dados, terminou)
    }
  }

  /** The bot's answers, named after their content; `PlanReady` carries the
      plan whose text is sent. */
  datatype Reply =
    | Farewell | Welcome | BadObjective | AskWeight | BadWeight | AskActivity | BadActivity
    | AskCholesterol | AskMeals | BadMeals | AskRestrictions | AskBudget | BadBudget
    | PlanReady(plan: Core.Plan) | PlanFailed | NewPlanWelcome | AfterPlanHint | Fallback

  const QuitWords: seq<string> := ["sair", "exit", "quit"]
  const ResetWords: seq<string> := ["novo", "recomecar", "recomeçar", "reset"]
  const AgainWords: seq<string> := ["novo", "sim", "s", "gerar outro", "outro"]

  // ---------------------------------------------------------------------------
  // The answers handed to the plan builder
  // ---------------------------------------------------------------------------

  /** `int(x)` of a stored value (a float is truncated). */
  function AsInt(v: Value): Option<int> {
    match v
    case IntValue(i) => Some(i)
    case RealValue(r) => Some(Trunc(r))
    case RestrValue(_) => None
  }

  /** `float(x)` of a stored value. */
  function AsReal(v: Value): Option<real> {
    match v
    case IntValue(i) => Some(i as real)
    case RealValue(r) => Some(r)
    case RestrValue(_) => None
  }

  function AsRestr(v: Value): Option<map<string, seq<string>>> {
    if v.RestrValue? then Some(v.m) else None
  }

  /** The fixed optimiser settings `{"pop": 120, "ger": 200, "elit": 6, "seed": 42}`. */
  const ChatAg: P.Params := P.NoParams.(pop := Some(120), ger := Some(200), elit := Some(6), seed := Some(42))

  const ChatTable: string := "assets/data/taco_min.csv"

  /** `dados_core`, or `None` when a key is missing or a value does not
      convert (the exception that ends in `erro`). */
  function CoreDados(dados: map<Key, Value>): Option<Core.Dados> {
    if !(KObjetivo in dados && KAtividade in dados && KColesterol in dados && KPeso in dados
         && KNRefeicoes in dados && KRestricoes in dados && KOrcamento in dados) then None
    else
      var o, a, c := AsInt(dados[KObjetivo]), AsInt(dados[KAtividade]), AsInt(dados[KColesterol]);
      var w, n := AsReal(dados[KPeso]), AsInt(dados[KNRefeicoes]);
      var rs, b := AsRestr(dados[KRestricoes]), AsReal(dados[KOrcamento]);
      if o.None? || a.None? || c.None? || w.None? || n.None? || rs.None? || b.None? then None
      else Some(Core.Dados(o.value, a.value, c.value, w.value, Some(n.value), Some(rs.value), Some(b.value),
                           Some(ChatTable), Some(ChatAg)))
  }

  // ---------------------------------------------------------------------------
  // processar_mensagem
  // ---------------------------------------------------------------------------

  /** The answers after a budget answer is stored: 0 means no limit (9999). */
  function WithBudget(dados: map<Key, Value>, orc: real): map<Key, Value> {
    dados[KOrcamento := RealValue(if orc > 0.0 then orc else 9999.0)]
  }

  /** `sair`, `exit` or `quit`, in any case. */
  predicate IsQuit(msg: string) {
    Lower(msg) in QuitWords
  }

  /** `novo`, `recomecar`, `recomeçar` or `reset`, in any case. */
  predicate IsReset(msg: string) {
    Lower(msg) in ResetWords
  }

  /** `v` with `x` stored for `k` and the stage set to `next`. */
  function Store(v: Snapshot, k: Key, x: Value, next: Stage): Snapshot {
    v.(dados := v.dados[k := x], etapa := next)
  }

  // One function per stage: the reply and the new state for the trimmed
  // answer `msg`, through the value the stage reads from it.

  function ObjectiveOutcome(v: Snapshot, o: Option<int>): (Reply, Snapshot) {
    if o.None? then (BadObjective, v)
    else (AskWeight, Store(v, KObjetivo, IntValue(o.value), Peso))
  }

  function AnswerObjective(v: Snapshot, msg: string): (Reply, Snapshot) {
    ObjectiveOutcome(v, InterpretObjective(msg))
  }

  function WeightOutcome(v: Snapshot, w: Option<real>): (Reply, Snapshot) {
    if w.None? || w.value <= 0.0 then (BadWeight, v)
    else (AskActivity, Store(v, KPeso, RealValue(w.value), Atividade))
  }

  function AnswerWeight(v: Snapshot, msg: string): (Reply, Snapshot) {
    WeightOutcome(v, ParseFloat(msg))
  }

  function ActivityOutcome(v: Snapshot, a: Option<int>): (Reply, Snapshot) {
    if a.None? || a.value < 0 || a.value > 10 then (BadActivity, v)
    else (AskCholesterol, Store(v, KAtividade, IntValue(a.value), Colesterol))
  }

  function AnswerActivity(v: Snapshot, msg: string): (Reply, Snapshot) {
    ActivityOutcome(v, ParseInt(msg))
  }

  /** An unreadable or non-positive cholesterol is taken as 190. */
  function CholesterolOf(msg: string): (c: int)
    ensures c > 0
    ensures ParseInt(msg).Some? && ParseInt(msg).value > 0 ==> c == ParseInt(msg).value
    ensures ParseInt(msg).None? || ParseInt(msg).value <= 0 ==> c == 190
  {
    var c := ParseInt(msg);
    if c.None? || c.value <= 0 then 190 else c.value
  }

  function CholesterolOutcome(v: Snapshot, c: int): (Reply, Snapshot) {
    (AskMeals, Store(v, KColesterol, IntValue(c), NRefeicoes))
  }

  function AnswerCholesterol(v: Snapshot, msg: string): (Reply, Snapshot) {
    CholesterolOutcome(v, CholesterolOf(msg))
  }

  function MealsOutcome(v: Snapshot, n: Option<int>): (Reply, Snapshot) {
    if n.None? || n.value < 3 || n.value > 7 then (BadMeals, v)
    else (AskRestrictions, Store(v, KNRefeicoes, IntValue(n.value), Restricoes))
  }

  function AnswerMeals(v: Snapshot, msg: string): (Reply, Snapshot) {
    MealsOutcome(v, ParseInt(msg))
  }

  function RestrictionsOutcome(v: Snapshot, r: map<string, seq<string>>): (Reply, Snapshot) {
    (AskBudget, Store(v, KRestricoes, RestrValue(r), Orcamento))
  }

  function AnswerRestrictions(v: Snapshot, msg: string): (Reply, Snapshot) {
    RestrictionsOutcome(v, ParseRestrictions(msg))
  }

  /** After `orc` is stored: `fim` with the plan when the answers convert and
      the plan builder succeeds, `erro` otherwise. */
  function BudgetOutcome(v: Snapshot, orc: real, planned: Result<Core.Plan, Core.PlanError>): (Reply, Snapshot) {
    var dados := WithBudget(v.dados, orc);
    if CoreDados(dados).Some? && planned.Ok? then (PlanReady(planned.value), v.(dados := dados, etapa := Fim))
    else (PlanFailed, v.(dados := dados, etapa := Erro))
  }

  function BudgetReply(v: Snapshot, b: Option<real>, planned: Result<Core.Plan, Core.PlanError>): (Reply, Snapshot) {
    if b.None? || b.value < 0.0 then (BadBudget, v)
    else BudgetOutcome(v, b.value, planned)
  }

  function AnswerBudget(v: Snapshot, msg: string, planned: Result<Core.Plan, Core.PlanError>): (Reply, Snapshot) {
    BudgetReply(v, ParseFloat(msg), planned)
  }

  function AnswerAfterPlan(v: Snapshot, msg: string): (Reply, Snapshot) {
    if Lower(msg) in AgainWords then (NewPlanWelcome, Fresh) else (AfterPlanHint, v)
  }

  /** The stage dispatch for an answer that is not a global command. */
  function Answer(v: Snapshot, msg: string, planned: Result<Core.Plan, Core.PlanError>): (Reply, Snapshot) {
    match v.etapa
    case Inicio => (Welcome, v.(etapa := Objetivo))
    case Objetivo => AnswerObjective(v, msg)
    case Peso => AnswerWeight(v, msg)
    case Atividade => AnswerActivity(v, msg)
    case Colesterol => AnswerCholesterol(v, msg)
    case NRefeicoes => AnswerMeals(v, msg)
    case Restricoes => AnswerRestrictions(v, msg)
    case Orcamento => AnswerBudget(v, msg, planned)
    case Gerando => (Fallback, v)
    case Fim => AnswerAfterPlan(v, msg)
    case Erro => AnswerAfterPlan(v, msg)
  }

  /** The reply and the state after `mensagem`, where `planned` is what the
      plan builder returned (it matters only when the builder runs). */
  function Next(v: Snapshot, mensagem: string, planned: Result<Core.Plan, Core.PlanError>): (Reply, Snapshot) {
    var msg := Strip(mensagem);
    if IsQuit(msg) then (Farewell, v.(terminou := true))
    else if IsReset(msg) then (Welcome, Fresh)
    else Answer(v, msg, planned)
  }

  /** The trimmed answer `msg` to the budget question is a usable number and
      every stored answer converts: the plan builder runs. */
  predicate BuildsPlan(v: Snapshot, msg: string) {
    v.etapa == Orcamento && ParseFloat(msg).Some? && ParseFloat(msg).value >= 0.0
    && CoreDados(WithBudget(v.dados, ParseFloat(msg).value)).Some?
  }

  predicate Generates(v: Snapshot, mensagem: string) {
    !IsQuit(Strip(mensagem)) && !IsReset(Strip(mensagem)) && BuildsPlan(v, Strip(mensagem))
  }

  // ---------------------------------------------------------------------------
  // processar_mensagem, in place
  // ---------------------------------------------------------------------------

  method StoreObjective(state: ChatState, msg: string) returns (reply: Reply)
    modifies state
    ensures (reply, state.Value()) == AnswerObjective(old(state.Value()), msg)
  {
    var o := InterpretObjective(msg);
    if o.None? {
      return BadObjective;
    }
    state.dados := state.dados[KObjetivo := IntValue(o.value)];
    state.etapa := Peso;
    reply := AskWeight;
  }

  method StoreWeight(state: ChatState, msg: string) returns (reply: Reply)
    modifies state
    ensures (reply, state.Value()) == AnswerWeight(old(state.Value()), msg)
  {
    var w := ParseFloat(msg);
    if w.None? || w.value <= 0.0 {
      return BadWeight;
    }
    state.dados := state.dados[KPeso := RealValue(w.value)];
    state.etapa := Atividade;
    reply := AskActivity;
  }

  method StoreActivity(state: ChatState, msg: string) returns (reply: Reply)
    modifies state
    ensures (reply, state.Value()) == AnswerActivity(old(state.Value()), msg)
  {
    var a := ParseInt(msg);
    if a.None? || a.value < 0 || a.value > 10 {
      return BadActivity;
    }
    state.dados := state.dados[KAtividade := IntValue(a.value)];
    state.etapa := Colesterol;
    reply := AskCholesterol;
  }

  method StoreCholesterol(state: ChatState, msg: string) returns (reply: Reply)
    modifies state
    ensures (reply, state.Value()) == AnswerCholesterol(old(state.Value()), msg)
  {
    var c := ParseInt(msg);
    var col := if c.None? || c.value <= 0 then 190 else c.value;
    state.dados := state.dados[KColesterol := IntValue(col)];
    state.etapa := NRefeicoes;
    reply := AskMeals;
  }

  method StoreMeals(state: ChatState, msg: string) returns (reply: Reply)
    modifies state
    ensures (reply, state.Value()) == AnswerMeals(old(state.Value()), msg)
  {
    var n := ParseInt(msg);
    if n.None? || n.value < 3 || n.value > 7 {
      return BadMeals;
    }
    state.dados := state.dados[KNRefeicoes := IntValue(n.value)];
    state.etapa := Restricoes;
    reply := AskRestrictions;
  }

  method StoreRestrictions(state: ChatState, msg: string) returns (reply: Reply)
    modifies state
    ensures (reply, state.Value()) == AnswerRestrictions(old(state.Value()), msg)
  {
    ghost var v := state.Value();
    var r := ParseRestrictions(msg);
    state.dados := state.dados[KRestricoes := RestrValue(r)];
    state.etapa := Orcamento;
    reply := AskBudget;
    assert state.Value() == Store(v, KRestricoes, RestrValue(r), Orcamento);
  }

  /** The budget is stored, the stage is `gerando` while the plan builder
      runs, then `fim` or `erro`. */
  method StoreBudget(state: ChatState, orc: real, env: Core.Env)
    returns (reply: Reply, ghost planned: Result<Core.Plan, Core.PlanError>, ghost d: Core.Dados, ghost tr: D.Trace)
    modifies state
    ensures (reply, state.Value()) == BudgetOutcome(old(state.Value()), orc, planned)
    ensures CoreDados(WithBudget(old(state.dados), orc)).Some? ==>
      CoreDados(WithBudget(old(state.dados), orc)) == Some(d) && Core.PlanOutcome(env, d, planned, tr)
  {
    planned := Err(Core.MenuFailure(Ev.MissingTable));
    tr := D.NoTrace;
    var dados := WithBudget(state.dados, orc);
    state.dados := dados;
    state.etapa := Gerando;
    var cd := CoreDados(dados);
    if cd.None? {
      d := Core.Dados(0, 0, 0, 0.0, None, None, None, None, None);
      state.etapa := Erro;
      return PlanFailed, planned, d, tr;
    }
    d := cd.value;
    var r;
    r, tr := Core.PlanForUser(env, cd.value);
    planned := r;
    if r.Ok? {
      state.etapa := Fim;
      reply := PlanReady(r.value);
    } else {
      state.etapa := Erro;
      reply := PlanFailed;
    }
  }

  method StoreAnswer(state: ChatState, msg: string, env: Core.Env)
    returns (reply: Reply, st: ChatState, ghost planned: Result<Core.Plan, Core.PlanError>, ghost d: Core.Dados, ghost tr: D.Trace)
    modifies state
    ensures (reply, st.Value()) == Answer(old(state.Value()), msg, planned)
    ensures BuildsPlan(old(state.Value()), msg) ==> CoreDados(st.dados) == Some(d) && Core.PlanOutcome(env, d, planned, tr)
    ensures st == state || (fresh(st) && unchanged(state))
  {
    planned := Err(Core.MenuFailure(Ev.MissingTable));
    d := Core.Dados(0, 0, 0, 0.0, None, None, None, None, None);
    tr := D.NoTrace;
    st := state;
    match state.etapa
    case Inicio =>
      state.etapa := Objetivo;
      reply := Welcome;
    case Objetivo =>
      reply := StoreObjective(state, msg);
    case Peso =>
      reply := StoreWeight(state, msg);
    case Atividade =>
      reply := StoreActivity(state, msg);
    case Colesterol =>
      reply := StoreCholesterol(state, msg);
    case NRefeicoes =>
      reply := StoreMeals(state, msg);
    case Restricoes =>
      reply := StoreRestrictions(state, msg);
    case Orcamento =>
      var b := ParseFloat(msg);
      if b.None? || b.value < 0.0 {
        reply := BadBudget;
      } else {
        reply, planned, d, tr := StoreBudget(state, b.value, env);
      }
    case Gerando =>
      reply := Fallback;
    case Fim =>
      reply, st := AfterPlan(state, msg);
    case Erro =>
      reply, st := AfterPlan(state, msg);
  }

  method AfterPlan(state: ChatState, msg: string) returns (reply: Reply, st: ChatState)
    ensures (reply, st.Value()) == AnswerAfterPlan(state.Value(), msg)
    ensures st == state || fresh(st)
  {
    if Lower(msg) in AgainWords {
      st := new ChatState();
      reply := NewPlanWelcome;
    } else {
      st := state;
      reply := AfterPlanHint;
    }
  }

  /** `processar_mensagem(state, mensagem)`: the state is changed in place,
      except after a reset, which returns a new state and leaves the old one
      as it was. */
  method Process(state: ChatState, mensagem: string, env: Core.Env)
    returns (reply: Reply, st: ChatState, ghost planned: Result<Core.Plan, Core.PlanError>, ghost d: Core.Dados, ghost tr: D.Trace)
    modifies state
    ensures (reply, st.Value()) == Next(old(state.Value()), mensagem, planned)
    ensures Generates(old(state.Value()), mensagem) ==> CoreDados(st.dados) == Some(d) && Core.PlanOutcome(env, d, planned, tr)
    ensures st == state || (fresh(st) && unchanged(state))
  {
    var msg := Strip(mensagem);
    if IsQuit(msg) {
      planned := Err(Core.MenuFailure(Ev.MissingTable));
      d := Core.Dados(0, 0, 0, 0.0, None, None, None, None, None);
      tr := D.NoTrace;
      state.terminou := true;
      return Farewell, state, planned, d, tr;
    }
    if IsReset(msg) {
      planned := Err(Core.MenuFailure(Ev.MissingTable));
      d := Core.Dados(0, 0, 0, 0.0, None, None, None, None, None);
      tr := D.NoTrace;
      st := new ChatState();
      return Welcome, st, planned, d, tr;
    }
    reply, st, planned, d, tr := StoreAnswer(state, msg, env);
  }

  // ---------------------------------------------------------------------------
  // Laws of the conversation
  // ---------------------------------------------------------------------------

  /** No reset word is a quit word. */
  lemma CommandsDisjoint()
    ensures forall w :: w in ResetWords ==> w !in QuitWords
  {
  }

  /** `sair` at any stage only sets `terminou`: the stage and the answers stay
      as they were. */
  lemma QuitKeepsState(v: Snapshot, mensagem: string, planned: Result<Core.Plan, Core.PlanError>)
    requires IsQuit(Strip(mensagem))
    ensures Next(v, mensagem, planned).0 == Farewell
    ensures var u := Next(v, mensagem, planned).1; u.terminou && u.etapa == v.etapa && u.dados == v.dados
  {
  }

  /** A reset word at any stage gives a new conversation at `inicio` with no
      answers and `terminou` cleared. */
  lemma ResetGivesFresh(v: Snapshot, mensagem: string, planned: Result<Core.Plan, Core.PlanError>)
    requires IsReset(Strip(mensagem))
    ensures Next(v, mensagem, planned) == (Welcome, Snapshot(Inicio, map[], false))
  {
    CommandsDisjoint();
  }

  /** Any answer that is not a global command. */
  predicate Plain(mensagem: string) {
    !IsQuit(Strip(mensagem)) && !IsReset(Strip(mensagem))
  }

  /** A rejected answer leaves the conversation exactly as it was: an unknown
      objective, a weight that does not read as a positive number, an
      activity outside 0..10, a number of meals outside 3..7, a negative or
      unreadable budget. */
  lemma RejectionsKeepState(v: Snapshot, mensagem: string, planned: Result<Core.Plan, Core.PlanError>)
    requires Plain(mensagem)
    ensures var msg := Strip(mensagem);
      v.etapa == Objetivo && InterpretObjective(msg).None? ==> Next(v, mensagem, planned) == (BadObjective, v)
    ensures var w := ParseFloat(Strip(mensagem));
      v.etapa == Peso && (w.None? || w.value <= 0.0) ==> Next(v, mensagem, planned) == (BadWeight, v)
    ensures var a := ParseInt(Strip(mensagem));
      v.etapa == Atividade && (a.None? || a.value < 0 || a.value > 10) ==> Next(v, mensagem, planned) == (BadActivity, v)
    ensures var n := ParseInt(Strip(mensagem));
      v.etapa == NRefeicoes && (n.None? || n.value < 3 || n.value > 7) ==> Next(v, mensagem, planned) == (BadMeals, v)
    ensures var b := ParseFloat(Strip(mensagem));
      v.etapa == Orcamento && (b.None? || b.value < 0.0) ==> Next(v, mensagem, planned) == (BadBudget, v)
  {
  }

  /** The cholesterol question accepts every answer: the stage always
      advances and a positive value is stored, 190 when the answer is no
      positive integer. */
  lemma CholesterolAlwaysAdvances(v: Snapshot, mensagem: string, planned: Result<Core.Plan, Core.PlanError>)
    requires Plain(mensagem) && v.etapa == Colesterol
    ensures var u := Next(v, mensagem, planned).1; var c := ParseInt(Strip(mensagem));
      u.etapa == NRefeicoes && KColesterol in u.dados && u.dados[KColesterol].IntValue?
      && u.dados[KColesterol].i > 0
      && (c.None? || c.value <= 0 ==> u.dados[KColesterol].i == 190)
  {
  }

  /** A usable budget is stored (0 as 9999) and the conversation ends in
      `fim` with the plan, or in `erro`. */
  lemma BudgetStored(v: Snapshot, mensagem: string, planned: Result<Core.Plan, Core.PlanError>)
    requires Plain(mensagem) && v.etapa == Orcamento
    requires ParseFloat(Strip(mensagem)).Some? && ParseFloat(Strip(mensagem)).value >= 0.0
    ensures var x := ParseFloat(Strip(mensagem)).value; var r := Next(v, mensagem, planned);
      r.1.dados == v.dados[KOrcamento := RealValue(if x > 0.0 then x else 9999.0)]
      && (r.1.etapa == Fim || r.1.etapa == Erro)
      && (r.1.etapa == Fim <==> r.0.PlanReady?)
      && (r.0.PlanReady? ==> planned.Ok? && r.0.plan == planned.value)
  {
    PlainIsAnswer(v, mensagem, planned);
    var b := ParseFloat(Strip(mensagem));
    assert Next(v, mensagem, planned) == BudgetOutcome(v, b.value, planned);
    BudgetOutcomeShape(v, b.value, planned);
  }

  /** The stage after each question: objective, weight, activity, cholesterol,
      meals, restrictions, budget, then the end. */
  function Following(s: Stage): Stage {
    match s
    case Inicio => Objetivo
    case Objetivo => Peso
    case Peso => Atividade
    case Atividade => Colesterol
    case Colesterol => NRefeicoes
    case NRefeicoes => Restricoes
    case Restricoes => Orcamento
    case Orcamento => Fim
    case Gerando => Gerando
    case Fim => Inicio
    case Erro => Inicio
  }

  /** The key the question of a stage fills. */
  function Asked(s: Stage): Option<Key> {
    match s
    case Objetivo => Some(KObjetivo)
    case Peso => Some(KPeso)
    case Atividade => Some(KAtividade)
    case Colesterol => Some(KColesterol)
    case NRefeicoes => Some(KNRefeicoes)
    case Restricoes => Some(KRestricoes)
    case Orcamento => Some(KOrcamento)
    case _ => None
  }

  /** `u` is `v` with an accepted answer stored for `k` and the stage set to
      `next`. */
  predicate Stores(v: Snapshot, u: Snapshot, k: Key, next: Stage) {
    u.etapa == next && k in u.dados && u.dados == v.dados[k := u.dados[k]]
    && u.terminou == v.terminou && Accepted(k, u.dados[k])
  }

  /** The answer to a question either is rejected, leaving the conversation as
      it was, or is stored under the key of that question with the stage moved
      on (after the budget, to `fim` or `erro`). */
  lemma AnswerStores(v: Snapshot, msg: string, planned: Result<Core.Plan, Core.PlanError>)
    requires Asked(v.etapa).Some?
    ensures var u := Answer(v, msg, planned).1; var k := Asked(v.etapa).value;
      u == v || Stores(v, u, k, Following(v.etapa)) || (v.etapa == Orcamento && Stores(v, u, k, Erro))
  {
    match v.etapa
    case Objetivo => ObjectiveStores(v, msg);
    case Peso => WeightStores(v, msg);
    case Atividade => ActivityStores(v, msg);
    case Colesterol => CholesterolStores(v, msg);
    case NRefeicoes => MealsStores(v, msg);
    case Restricoes => RestrictionsStores(v, msg);
    case Orcamento => BudgetStores(v, msg, planned);
  }

  /** An accepted value stored for `k` with the stage set to `next`. */
  lemma StoreIsStores(v: Snapshot, k: Key, x: Value, next: Stage)
    requires Accepted(k, x)
    ensures Stores(v, Store(v, k, x, next), k, next)
  {
  }

  /** Storing an accepted answer for the question of a stage and moving one
      rank on keeps a conversation well formed. */
  lemma StoreKeepsWellFormed(v: Snapshot, k: Key, x: Value, next: Stage)
    requires WellFormed(v) && StageRank(v.etapa) == KeyRank(k) && Accepted(k, x)
    requires StageRank(next) == KeyRank(k) + 1 && next != Gerando
    ensures WellFormed(Store(v, k, x, next))
  {
    StoreIsStores(v, k, x, next);
    KeepsAfterStore(v, k, next, Store(v, k, x, next));
  }

  lemma ObjectiveOutcomeStores(v: Snapshot, o: Option<int>)
    requires o.Some? ==> 0 <= o.value <= 2
    ensures var u := ObjectiveOutcome(v, o).1; u == v || Stores(v, u, KObjetivo, Peso)
    ensures WellFormed(v) && v.etapa == Objetivo ==> WellFormed(ObjectiveOutcome(v, o).1)
  {
    if o.Some? {
      StoreIsStores(v, KObjetivo, IntValue(o.value), Peso);
      if WellFormed(v) && v.etapa == Objetivo {
        StoreKeepsWellFormed(v, KObjetivo, IntValue(o.value), Peso);
      }
    }
  }

  lemma ObjectiveStores(v: Snapshot, msg: string)
    ensures var u := AnswerObjective(v, msg).1; u == v || Stores(v, u, KObjetivo, Peso)
    ensures WellFormed(v) && v.etapa == Objetivo ==> WellFormed(AnswerObjective(v, msg).1)
  {
    ObjectiveOutcomeStores(v, InterpretObjective(msg));
  }

  lemma WeightOutcomeStores(v: Snapshot, w: Option<real>)
    ensures var u := WeightOutcome(v, w).1; u == v || Stores(v, u, KPeso, Atividade)
    ensures WellFormed(v) && v.etapa == Peso ==> WellFormed(WeightOutcome(v, w).1)
  {
    if w.Some? && w.value > 0.0 {
      StoreIsStores(v, KPeso, RealValue(w.value), Atividade);
      if WellFormed(v) && v.etapa == Peso {
        StoreKeepsWellFormed(v, KPeso, RealValue(w.value), Atividade);
      }
    }
  }

  lemma WeightStores(v: Snapshot, msg: string)
    ensures var u := AnswerWeight(v, msg).1; u == v || Stores(v, u, KPeso, Atividade)
    ensures WellFormed(v) && v.etapa == Peso ==> WellFormed(AnswerWeight(v, msg).1)
  {
    WeightOutcomeStores(v, ParseFloat(msg));
  }

  lemma ActivityOutcomeStores(v: Snapshot, a: Option<int>)
    ensures var u := ActivityOutcome(v, a).1; u == v || Stores(v, u, KAtividade, Colesterol)
    ensures WellFormed(v) && v.etapa == Atividade ==> WellFormed(ActivityOutcome(v, a).1)
  {
    if a.Some? && 0 <= a.value <= 10 {
      StoreIsStores(v, KAtividade, IntValue(a.value), Colesterol);
      if WellFormed(v) && v.etapa == Atividade {
        StoreKeepsWellFormed(v, KAtividade, IntValue(a.value), Colesterol);
      }
    }
  }

  lemma ActivityStores(v: Snapshot, msg: string)
    ensures var u := AnswerActivity(v, msg).1; u == v || Stores(v, u, KAtividade, Colesterol)
    ensures WellFormed(v) && v.etapa == Atividade ==> WellFormed(AnswerActivity(v, msg).1)
  {
    ActivityOutcomeStores(v, ParseInt(msg));
  }

  lemma CholesterolStores(v: Snapshot, msg: string)
    ensures Stores(v, AnswerCholesterol(v, msg).1, KColesterol, NRefeicoes)
    ensures WellFormed(v) && v.etapa == Colesterol ==> WellFormed(AnswerCholesterol(v, msg).1)
  {
    CholesterolOutcomeStores(v, CholesterolOf(msg));
  }

  lemma CholesterolOutcomeStores(v: Snapshot, c: int)
    requires c > 0
    ensures Stores(v, CholesterolOutcome(v, c).1, KColesterol, NRefeicoes)
    ensures WellFormed(v) && v.etapa == Colesterol ==> WellFormed(CholesterolOutcome(v, c).1)
  {
    StoreIsStores(v, KColesterol, IntValue(c), NRefeicoes);
    if WellFormed(v) && v.etapa == Colesterol {
      StoreKeepsWellFormed(v, KColesterol, IntValue(c), NRefeicoes);
    }
  }

  lemma MealsOutcomeStores(v: Snapshot, n: Option<int>)
    ensures var u := MealsOutcome(v, n).1; u == v || Stores(v, u, KNRefeicoes, Restricoes)
    ensures WellFormed(v) && v.etapa == NRefeicoes ==> WellFormed(MealsOutcome(v, n).1)
  {
    if n.Some? && 3 <= n.value <= 7 {
      StoreIsStores(v, KNRefeicoes, IntValue(n.value), Restricoes);
      if WellFormed(v) && v.etapa == NRefeicoes {
        StoreKeepsWellFormed(v, KNRefeicoes, IntValue(n.value), Restricoes);
      }
    }
  }

  lemma MealsStores(v: Snapshot, msg: string)
    ensures var u := AnswerMeals(v, msg).1; u == v || Stores(v, u, KNRefeicoes, Restricoes)
    ensures WellFormed(v) && v.etapa == NRefeicoes ==> WellFormed(AnswerMeals(v, msg).1)
  {
    MealsOutcomeStores(v, ParseInt(msg));
  }

  lemma RestrictionsOutcomeStores(v: Snapshot, r: map<string, seq<string>>)
    ensures Stores(v, RestrictionsOutcome(v, r).1, KRestricoes, Orcamento)
    ensures WellFormed(v) && v.etapa == Restricoes ==> WellFormed(RestrictionsOutcome(v, r).1)
  {
    StoreIsStores(v, KRestricoes, RestrValue(r), Orcamento);
    if WellFormed(v) && v.etapa == Restricoes {
      StoreKeepsWellFormed(v, KRestricoes, RestrValue(r), Orcamento);
    }
  }

  lemma RestrictionsStores(v: Snapshot, msg: string)
    ensures Stores(v, AnswerRestrictions(v, msg).1, KRestricoes, Orcamento)
    ensures WellFormed(v) && v.etapa == Restricoes ==> WellFormed(AnswerRestrictions(v, msg).1)
  {
    RestrictionsOutcomeStores(v, ParseRestrictions(msg));
  }

  /** After a usable budget only the stored budget and the stage change. */
  lemma BudgetOutcomeShape(v: Snapshot, orc: real, planned: Result<Core.Plan, Core.PlanError>)
    ensures var u := BudgetOutcome(v, orc, planned).1;
      u == v.(dados := WithBudget(v.dados, orc), etapa := u.etapa) && (u.etapa == Fim || u.etapa == Erro)
    ensures var r := BudgetOutcome(v, orc, planned);
      (r.1.etapa == Fim <==> r.0.PlanReady?) && (r.0.PlanReady? ==> planned.Ok? && r.0.plan == planned.value)
  {
  }

  lemma BudgetReplyStores(v: Snapshot, b: Option<real>, planned: Result<Core.Plan, Core.PlanError>)
    ensures var u := BudgetReply(v, b, planned).1;
      u == v || Stores(v, u, KOrcamento, Fim) || Stores(v, u, KOrcamento, Erro)
  {
    if b.Some? && b.value >= 0.0 {
      BudgetOutcomeShape(v, b.value, planned);
      var u := BudgetOutcome(v, b.value, planned).1;
      var x := RealValue(if b.value > 0.0 then b.value else 9999.0);
      assert u.dados == v.dados[KOrcamento := x];
      assert Accepted(KOrcamento, x);
    }
  }

  lemma BudgetStores(v: Snapshot, msg: string, planned: Result<Core.Plan, Core.PlanError>)
    ensures var u := AnswerBudget(v, msg, planned).1;
      u == v || Stores(v, u, KOrcamento, Fim) || Stores(v, u, KOrcamento, Erro)
  {
    BudgetReplyStores(v, ParseFloat(msg), planned);
  }

  /** A plain answer is handled by the stage dispatch on the trimmed text. */
  lemma PlainIsAnswer(v: Snapshot, mensagem: string, planned: Result<Core.Plan, Core.PlanError>)
    requires Plain(mensagem)
    ensures Next(v, mensagem, planned) == Answer(v, Strip(mensagem), planned)
  {
  }

  /** An answer that is not a command either leaves the conversation as it
      was or moves it one stage on: the budget to `fim` or `erro`, the end
      back to a new conversation. */
  lemma StagesInOrder(v: Snapshot, mensagem: string, planned: Result<Core.Plan, Core.PlanError>)
    requires Plain(mensagem)
    ensures var u := Next(v, mensagem, planned).1;
      u == v || u.etapa == Following(v.etapa) || (v.etapa == Orcamento && u.etapa == Erro)
    ensures var u := Next(v, mensagem, planned).1;
      (v.etapa == Fim || v.etapa == Erro) && u != v ==> u == Fresh
  {
    PlainIsAnswer(v, mensagem, planned);
    AnswerInOrder(v, Strip(mensagem), planned);
  }

  /** The stage dispatch keeps the conversation or moves it one stage on. */
  lemma AnswerInOrder(v: Snapshot, msg: string, planned: Result<Core.Plan, Core.PlanError>)
    ensures var u := Answer(v, msg, planned).1;
      u == v || u.etapa == Following(v.etapa) || (v.etapa == Orcamento && u.etapa == Erro)
    ensures var u := Answer(v, msg, planned).1;
      (v.etapa == Fim || v.etapa == Erro) && u != v ==> u == Fresh
  {
    match v.etapa
    case Inicio =>
    case Objetivo => ObjectiveStores(v, msg);
    case Peso => WeightStores(v, msg);
    case Atividade => ActivityStores(v, msg);
    case Colesterol => CholesterolStores(v, msg);
    case NRefeicoes => MealsStores(v, msg);
    case Restricoes => RestrictionsStores(v, msg);
    case Orcamento => BudgetStores(v, msg, planned);
    case Gerando =>
    case Fim =>
    case Erro =>
  }

  /** An answer to a question that moves the conversation on stores exactly
      the key of that question, with a value the question accepts. */
  lemma AnswerStoresKey(v: Snapshot, mensagem: string, planned: Result<Core.Plan, Core.PlanError>)
    requires Plain(mensagem) && Asked(v.etapa).Some?
    ensures var u := Next(v, mensagem, planned).1;
      u != v ==> Stores(v, u, Asked(v.etapa).value, u.etapa)
  {
    PlainIsAnswer(v, mensagem, planned);
    AnswerStores(v, Strip(mensagem), planned);
  }

  // ---------------------------------------------------------------------------
  // The answers a conversation collects
  // ---------------------------------------------------------------------------

  function KeyRank(k: Key): nat {
    match k
    case KObjetivo => 1
    case KPeso => 2
    case KAtividade => 3
    case KColesterol => 4
    case KNRefeicoes => 5
    case KRestricoes => 6
    case KOrcamento => 7
  }

  function StageRank(s: Stage): nat {
    match s
    case Inicio => 0
    case Objetivo => 1
    case Peso => 2
    case Atividade => 3
    case Colesterol => 4
    case NRefeicoes => 5
    case Restricoes => 6
    case Orcamento => 7
    case Gerando => 8
    case Fim => 8
    case Erro => 8
  }

  /** The value stored for a key is the one its question accepts. */
  predicate Accepted(k: Key, x: Value) {
    match k
    case KObjetivo => x.IntValue? && 0 <= x.i <= 2
    case KPeso => x.RealValue? && x.r > 0.0
    case KAtividade => x.IntValue? && 0 <= x.i <= 10
    case KColesterol => x.IntValue? && x.i > 0
    case KNRefeicoes => x.IntValue? && 3 <= x.i <= 7
    case KRestricoes => x.RestrValue?
    case KOrcamento => x.RealValue? && x.r > 0.0
  }

  /** A conversation as the machine leaves it: not in the middle of building
      a plan, holding an accepted answer for every question before its stage
      and no other. */
  predicate WellFormed(v: Snapshot) {
    v.etapa != Gerando
    && (forall k :: k in v.dados <==> KeyRank(k) < StageRank(v.etapa))
    && (forall k :: k in v.dados ==> Accepted(k, v.dados[k]))
  }

  lemma FreshWellFormed()
    ensures WellFormed(Fresh)
  {
  }

  /** Storing an accepted answer for the question of a stage and moving one
      rank on keeps a conversation well formed. */
  lemma KeepsAfterStore(v: Snapshot, k: Key, next: Stage, u: Snapshot)
    requires WellFormed(v) && StageRank(v.etapa) == KeyRank(k)
    requires Stores(v, u, k, next) && StageRank(next) == KeyRank(k) + 1 && next != Gerando
    ensures WellFormed(u)
  {
  }

  /** Every answer keeps a conversation well formed. */
  lemma AnswerKeepsWellFormed(v: Snapshot, msg: string, planned: Result<Core.Plan, Core.PlanError>)
    requires WellFormed(v)
    ensures WellFormed(Answer(v, msg, planned).1)
  {
    match v.etapa
    case Inicio =>
    case Objetivo => ObjectiveStores(v, msg);
    case Peso => WeightStores(v, msg);
    case Atividade => ActivityStores(v, msg);
    case Colesterol => CholesterolStores(v, msg);
    case NRefeicoes => MealsStores(v, msg);
    case Restricoes => RestrictionsStores(v, msg);
    case Orcamento => BudgetKeepsWellFormed(v, msg, planned);
    case Gerando =>
    case Fim => FreshWellFormed();
    case Erro => FreshWellFormed();
  }

  lemma BudgetKeepsWellFormed(v: Snapshot, msg: string, planned: Result<Core.Plan, Core.PlanError>)
    requires WellFormed(v) && v.etapa == Orcamento
    ensures WellFormed(AnswerBudget(v, msg, planned).1)
  {
    BudgetReplyKeepsWellFormed(v, ParseFloat(msg), planned);
  }

  lemma BudgetReplyKeepsWellFormed(v: Snapshot, b: Option<real>, planned: Result<Core.Plan, Core.PlanError>)
    requires WellFormed(v) && v.etapa == Orcamento
    ensures WellFormed(BudgetReply(v, b, planned).1)
  {
    var u := BudgetReply(v, b, planned).1;
    BudgetReplyStores(v, b, planned);
    if Stores(v, u, KOrcamento, Fim) {
      KeepsAfterStore(v, KOrcamento, Fim, u);
    } else if Stores(v, u, KOrcamento, Erro) {
      KeepsAfterStore(v, KOrcamento, Erro, u);
    }
  }

  /** A rejected answer or a stored one keeps a conversation well formed. */
  lemma KeepsIfStored(v: Snapshot, k: Key, next: Stage, u: Snapshot)
    requires WellFormed(v) && StageRank(v.etapa) == KeyRank(k)
    requires StageRank(next) == KeyRank(k) + 1 && next != Gerando
    requires u == v || Stores(v, u, k, next)
    ensures WellFormed(u)
  {
    if u != v {
      KeepsAfterStore(v, k, next, u);
    }
  }

  /** Every message keeps a conversation well formed. */
  lemma NextKeepsWellFormed(v: Snapshot, mensagem: string, planned: Result<Core.Plan, Core.PlanError>)
    requires WellFormed(v)
    ensures WellFormed(Next(v, mensagem, planned).1)
  {
    var msg := Strip(mensagem);
    if IsQuit(msg) {
      assert Next(v, mensagem, planned).1 == v.(terminou := true);
    } else if IsReset(msg) {
      FreshWellFormed();
    } else {
      PlainIsAnswer(v, mensagem, planned);
      AnswerKeepsWellFormed(v, msg, planned);
    }
  }

  /** In a well-formed conversation a usable budget answer always finds every
      answer in place: the plan builder runs with a positive weight, an
      objective in 0..2 and 3 to 7 meals, and can then only stop for a
      missing or empty food table or a zero fuzzy total. */
  lemma BudgetFindsAnswers(v: Snapshot, orc: real, base: string, table: string -> seq<C.Row>)
    requires WellFormed(v) && v.etapa == Orcamento && orc >= 0.0
    ensures CoreDados(WithBudget(v.dados, orc)).Some?
    ensures var d := CoreDados(WithBudget(v.dados, orc)).value;
      d.peso > 0.0 && 0 <= d.objetivo <= 2 && 0 <= d.atividade <= 10 && d.colesterol > 0
      && d.nRefeicoes.Some? && 3 <= d.nRefeicoes.value <= 7
      && M.CalcularMacros(d.objetivo, d.atividade, d.colesterol, d.peso, (x: M.Inputs) => M.Shares(1.0, 1.0, 1.0)).Ok?
    ensures var d := CoreDados(WithBudget(v.dados, orc)).value;
      var p := Core.PlanParams(d, Core.ResolveTable(base, d.tabelaCsv));
      D.SettingsOf(p) == D.Settings(d.nRefeicoes.value, 120, 200, 6, 0.6)
      && (D.ExpectedFailure(p, table).None? || D.ExpectedFailure(p, table) == Some(Ev.EmptyTable))
  {
    var d := CoreDados(WithBudget(v.dados, orc)).value;
    var path := Core.ResolveTable(base, d.tabelaCsv);
    Core.PlanParamsOverride(d, path);
    assert path != [] by {
      assert d.tabelaCsv == Some(ChatTable);
      Core.ChatTableIsDefault(base);
    }
  }
}
