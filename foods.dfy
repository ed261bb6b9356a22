/** Food records and the per-item rules of the menu optimiser
    (assets/genetic_module/genetic_module.py): tag and name matching, the
    carbohydrate-base / high-protein / high-fat classes, the portion clamp,
    nutrients of a portion, and the restriction matcher.  Nutrient values are
    exact reals, not IEEE doubles. */
module Foods {
  import opened Common
  import opened Text

  /** A catalogue row, all values per 100 g. */
  datatype FoodItem = FoodItem(
    id: string,
    name: string,
    kcal: real,
    carb: real,
    prot: real,
    fat: real,
    price: real,
    tags: seq<string>)

  /** `_has_tag`: some tag equals `tag` ignoring case. */
  predicate HasTag(item: FoodItem, tag: string) {
    exists t :: t in item.tags && Lower(t) == Lower(tag)
  }

  /** `_nome_match`: `frag` occurs in the name ignoring case. */
  predicate NameMatch(item: FoodItem, frag: string) {
    Contains(Lower(item.name), Lower(frag))
  }

  /** `_is_carb_base`: at least 12 g of carbohydrate and carbohydrate is the
      dominant macro by mass. */
  predicate IsCarbBase(item: FoodItem) {
    if item.carb < 12.0 then false else item.carb >= MaxR(item.prot, item.fat)
  }

  /** `_is_high_protein`. */
  predicate IsHighProtein(item: FoodItem) {
    item.prot >= 15.0
  }

  /** `_has_tag` with a tag that is already lower case, so that only the
      item's tags are lower-cased (`IsHighFatMeaning`). */
  predicate HasLowerTag(item: FoodItem, tag: string) {
    exists t :: t in item.tags && Lower(t) == tag
  }

  /** `_is_high_fat`: 15 g of fat, or a fat / nut / seed tag. */
  predicate IsHighFat(item: FoodItem) {
    if item.fat >= 15.0 then true
    else if HasLowerTag(item, "gordura") || HasLowerTag(item, "oleaginosa") || HasLowerTag(item, "semente") then true
    else false
  }

  /** The high-fat rule on `_has_tag` itself. */
  lemma IsHighFatMeaning(item: FoodItem)
    ensures IsHighFat(item) <==>
      item.fat >= 15.0 || HasTag(item, "gordura") || HasTag(item, "oleaginosa") || HasTag(item, "semente")
  {
    HasTagOfLowerCase(item, "gordura");
    HasTagOfLowerCase(item, "oleaginosa");
    HasTagOfLowerCase(item, "semente");
  }

  lemma HasTagOfLowerCase(item: FoodItem, tag: string)
    requires forall i :: 0 <= i < |tag| ==> 'a' <= tag[i] <= 'z' || tag[i] == ' '
    ensures HasTag(item, tag) == HasLowerTag(item, tag)
  {
    LowerOfLowerCase(tag);
  }

  /** The classification rules in words: carbohydrate base means at least 12 g
      and no less than either other macro. */
  lemma CarbBaseMeaning(item: FoodItem)
    ensures IsCarbBase(item) <==> item.carb >= 12.0 && item.carb >= item.prot && item.carb >= item.fat
  {
  }

  // ---------------------------------------------------------------------------
  // Portion clamp
  // ---------------------------------------------------------------------------

  /** Which of the clamp's caps apply to an item. */
  datatype CapFlags = CapFlags(dense: bool, highProt: bool, highFat: bool, whey: bool, peanut: bool, avocado: bool)

  /** The name tests are `_nome_match` with fragments that are already lower
      case, so only the name is lower-cased (`FlagsMatchNames`). */
  function Flags(item: FoodItem): CapFlags {
    var nome := Lower(item.name);
    CapFlags(item.kcal > 500.0, IsHighProtein(item), IsHighFat(item), Contains(nome, "whey"),
             Contains(nome, "pasta de amendoim") || Contains(nome, "amendoim"), Contains(nome, "abacate"))
  }

  /** The clamp's steps in the source's order, on the flags of an item. */
  function ClampSteps(f: CapFlags, por: int): int {
    var p0 := Max(20, Min(250, por));
    var p1 := if f.dense then Min(p0, 120) else p0;
    var p2 := if f.highProt then Min(p1, 180) else p1;
    var p3 := if f.highFat then Min(p2, 60) else p2;
    var p4 := if f.whey then Min(p3, 60) else p3;
    var p5 := if f.peanut then Min(p4, 40) else p4;
    if f.avocado then Min(p5, 120) else p5
  }

  /** The tightest cap the flags impose. */
  function CapOf(f: CapFlags): (cap: int)
    ensures 40 <= cap <= 250
    ensures f.dense ==> cap <= 120
    ensures f.highProt ==> cap <= 180
    ensures f.highFat || f.whey ==> cap <= 60
    ensures f.peanut ==> cap <= 40
    ensures f.avocado ==> cap <= 120
  {
    var c1 := if f.dense then 120 else 250;
    var c2 := if f.highProt then Min(c1, 180) else c1;
    var c3 := if f.highFat || f.whey then Min(c2, 60) else c2;
    var c4 := if f.peanut then Min(c3, 40) else c3;
    if f.avocado then Min(c4, 120) else c4
  }

  /** The sequence of caps is one clamp into [20, CapOf(f)]. */
  lemma ClampStepsIsClamp(f: CapFlags, por: int)
    ensures ClampSteps(f, por) == Max(20, Min(CapOf(f), por))
  {
  }

  lemma WheyIsLowerCase() ensures Lower("whey") == "whey" { LowerOfLowerCase("whey"); }
  lemma AbacateIsLowerCase() ensures Lower("abacate") == "abacate" { LowerOfLowerCase("abacate"); }
  lemma AmendoimIsLowerCase() ensures Lower("amendoim") == "amendoim" { LowerOfLowerCase("amendoim"); }
  lemma PastaIsLowerCase() ensures Lower("pasta de amendoim") == "pasta de amendoim" { LowerOfLowerCase("pasta de amendoim"); }

  /** The name tests of `Flags` are `_nome_match` on fragments that are
      already lower case. */
  lemma FlagsMatchNames(item: FoodItem)
    ensures Flags(item).whey == NameMatch(item, "whey")
    ensures Flags(item).peanut == (NameMatch(item, "pasta de amendoim") || NameMatch(item, "amendoim"))
    ensures Flags(item).avocado == NameMatch(item, "abacate")
  {
    WheyIsLowerCase(); AbacateIsLowerCase(); AmendoimIsLowerCase(); PastaIsLowerCase();
  }

  /** The largest portion the clamp allows for an item. */
  function PortionCap(item: FoodItem): int
  {
    CapOf(Flags(item))
  }

  /** `_safe_portion`.  Its result is the single clamp of `por` into
      [20, PortionCap(item)], so it lies in [20, 250] and under every cap that
      applies to the item. */
  function SafePortion(item: FoodItem, por: int): (r: int)
    ensures r == Max(20, Min(PortionCap(item), por))
    ensures 20 <= r <= 250
    ensures item.kcal > 500.0 ==> r <= 120
    ensures IsHighProtein(item) ==> r <= 180
    ensures IsHighFat(item) ==> r <= 60
  {
    ClampStepsIsClamp(Flags(item), por);
    ClampSteps(Flags(item), por)
  }

  /** The name-based caps of `_safe_portion`, stated on `_nome_match`. */
  lemma SafePortionWheyCap(item: FoodItem, por: int)
    requires NameMatch(item, "whey")
    ensures SafePortion(item, por) <= 60
  {
    FlagsMatchNames(item);
  }

  lemma SafePortionPeanutCap(item: FoodItem, por: int)
    requires NameMatch(item, "amendoim")
    ensures SafePortion(item, por) <= 40
  {
    FlagsMatchNames(item);
  }

  lemma SafePortionAvocadoCap(item: FoodItem, por: int)
    requires NameMatch(item, "abacate")
    ensures SafePortion(item, por) <= 120
  {
    FlagsMatchNames(item);
  }

  /** Clamping twice is clamping once. */
  lemma SafePortionIdempotent(item: FoodItem, por: int)
    ensures SafePortion(item, SafePortion(item, por)) == SafePortion(item, por)
  {
  }

  /** A larger requested portion never gives a smaller clamped one. */
  lemma SafePortionMonotone(item: FoodItem, a: int, b: int)
    requires a <= b
    ensures SafePortion(item, a) <= SafePortion(item, b)
  {
  }

  /** Portions already inside the allowed range are kept as they are. */
  lemma SafePortionKeepsAllowed(item: FoodItem, por: int)
    requires 20 <= por <= PortionCap(item)
    ensures SafePortion(item, por) == por
  {
  }

  // ---------------------------------------------------------------------------
  // Nutrients of a portion
  // ---------------------------------------------------------------------------

  datatype Nutrients = Nutrients(kcal: real, carb: real, prot: real, fat: real, cost: real)
  {
    function Plus(o: Nutrients): Nutrients {
      Nutrients(kcal + o.kcal, carb + o.carb, prot + o.prot, fat + o.fat, cost + o.cost)
    }
  }

  const Zero := Nutrients(0.0, 0.0, 0.0, 0.0, 0.0)

  /** `_nutr_por_porcao`: the per-100 g values scaled to `grams`. */
  function NutrPerPortion(item: FoodItem, grams: real): (n: Nutrients)
  {
    var f := grams / 100.0;
    Nutrients(item.kcal * f, item.carb * f, item.prot * f, item.fat * f, item.price * f)
  }

  /** Nutrients are additive in the portion: two portions weigh as one. */
  lemma NutrAdditive(item: FoodItem, a: real, b: real)
    ensures NutrPerPortion(item, a + b) == NutrPerPortion(item, a).Plus(NutrPerPortion(item, b))
  {
    var fa, fb := a / 100.0, b / 100.0;
    assert (a + b) / 100.0 == fa + fb;
    assert item.kcal * (fa + fb) == item.kcal * fa + item.kcal * fb;
    assert item.carb * (fa + fb) == item.carb * fa + item.carb * fb;
    assert item.prot * (fa + fb) == item.prot * fa + item.prot * fb;
    assert item.fat * (fa + fb) == item.fat * fa + item.fat * fb;
    assert item.price * (fa + fb) == item.price * fa + item.price * fb;
  }

  /** 100 g of an item carries exactly its per-100 g values. */
  lemma NutrOfHundred(item: FoodItem)
    ensures NutrPerPortion(item, 100.0) == Nutrients(item.kcal, item.carb, item.prot, item.fat, item.price)
  {
  }

  // ---------------------------------------------------------------------------
  // Restrictions
  // ---------------------------------------------------------------------------

  /** `restricoes.get("banidos", [])`. */
  function Banned(restricoes: map<string, seq<string>>): seq<string>
  {
    if "banidos" in restricoes then restricoes["banidos"] else []
  }

  /** `_violacao_restricoes`, on the set of lower-cased banned words: a word
      inside the lower-cased name, or a word equal to a lower-cased tag. */
  predicate Violates(item: FoodItem, banned: seq<string>)
  {
    var banidos := set b | b in banned :: Lower(b);
    if banidos == {} then false
    else
      var nome := Lower(item.name);
      var tags := set t | t in item.tags :: Lower(t);
      (exists b :: b in banidos && Contains(nome, b)) || banidos * tags != {}
  }

  /** The matcher in words: no banned words, no violation; otherwise a
      violation exactly when some banned word, lower-cased, occurs in the
      lower-cased name or equals a lower-cased tag. */
  lemma ViolatesIff(item: FoodItem, banned: seq<string>)
    ensures banned == [] ==> !Violates(item, banned)
    ensures Violates(item, banned) <==>
      exists b :: b in banned &&
        (Contains(Lower(item.name), Lower(b)) || exists t :: t in item.tags && Lower(t) == Lower(b))
  {
    var banidos := set b | b in banned :: Lower(b);
    var tags := set t | t in item.tags :: Lower(t);
    if exists b :: b in banned {
      var b :| b in banned;
      assert Lower(b) in banidos;
    }
    if exists b :: b in banned && exists t :: t in item.tags && Lower(t) == Lower(b) {
      var b :| b in banned && exists t :: t in item.tags && Lower(t) == Lower(b);
      var t :| t in item.tags && Lower(t) == Lower(b);
      assert Lower(b) in banidos * tags;
    }
    if banidos * tags != {} {
      var x :| x in banidos * tags;
      var b :| b in banned && Lower(b) == x;
      var t :| t in item.tags && Lower(t) == x;
    }
  }
}
