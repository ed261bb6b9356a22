# NutriBotIA meal-plan engine in Dafny

NutriBotIA builds a personal daily meal plan from a short chat. This
project models the engine behind it and proves what the engine promises.

- **Energy target** (`calculo_valor_energetico_total`): 22, 30 or 38 kcal
  per kg of body weight for cutting, maintenance or bulking (module `Energy`).
- **Macro targets** (`calcular_macros`): the inputs are clamped to the
  fuzzy universes and a 27-rule Mamdani table (kept as data) gives
  carbohydrate, protein and fat percentages. These are rescaled to 100 and
  turned into grams at 4/4/9 kcal per gram with Python's half-to-even
  `round` (module `Macros`). The fuzzy inference itself is a parameter.
- **Plan builder** (`assets/core_engine.py`): the diet label and tags, the
  macro percentages, the food-table path, and the optimiser parameters
  merged with the user's overrides. It chains the macro targets, the energy
  target and the optimiser (modules `Core`, `Params`).
- **Menu optimiser** (`assets/genetic_module/genetic_module.py`):
  - food records and the loader's row rule (modules `Foods`, `Catalog`);
  - the portion clamp and the fitness function with its penalties
    (`Fitness`, `FitnessLaws`);
  - random individuals (`Creation`);
  - crossover and in-place mutation (`Operators`);
  - the generation loop with elitism and tournaments (`Evolution`);
  - the final calorie scaling (`Scaling`) and the entry point
    `gerar_cardapio` (`Driver`).

  Meals are heap arrays (`Menu`). Crossover copies only the outer list, so
  children share meal arrays with their parents, and mutation writes into
  those shared arrays, exactly as in the Python lists.
- **Chatbot** (`assets/chatbot/chatbot_engine.py`): the conversation state
  machine `processar_mensagem` over a mutable `ChatState`, its answer
  parsers and the plain-text menu layout (module `Chat`).
- **Offline table builder** (`prepara_dados.py`): column detection by
  title, numeric clean-up, and the `categorizar` and `restricao` keyword
  classifiers (module `PrepareData`).
- **Scenario script** (`pipeline_teste.py`): the three text-to-scale
  mappers and the generation-count formula (module `Scenarios`).

Shared modules:

- `Common` holds Option/Result, `round` and `int()` on floats, and Python
  slicing.
- `Text` holds the Python string operations the code uses: `lower`,
  `strip`, `in`, `split`, `join`, `replace`, `int()` and `float()` on
  strings.
- `Random` is Python's `random` module as a stream of draws that a
  position walks through.
- `Sorting` is a stable sort, which is what `sorted(key=...)` is.

Nutrient amounts, costs and penalties are exact reals.

Randomness works as follows:

- Every random draw reads the next entry of a supplied stream.
- Which stream `random.seed(s)` yields is a parameter.
- The loaded food table is a parameter mapping a path to its rows.

## Model

| member | source | states |
|---|---|---|
| Energy.KcalPerKg | assets/fuzzy_module/calcular_vet.py:3-10 | 22, 30 and 38 kcal per kg for objectives 0, 1, 2 and 0 for any other value |
| Energy.Vet | assets/fuzzy_module/calcular_vet.py:2-14 | the energy target is the weight times the objective's kcal per kg, 0 for an unknown objective |
| Energy.VetExample | assets/fuzzy_module/calcular_vet.py:2-14 | a 70 kg maintenance diet is 2100 kcal |
| Energy.VetMonotone | assets/fuzzy_module/calcular_vet.py:4-12 | for a positive weight the target grows strictly from cutting to maintenance to bulking and is positive |
| Energy.VetLinear | assets/fuzzy_module/calcular_vet.py:12 | the target is additive and homogeneous in the weight |
| Macros.Clamp | assets/fuzzy_module/calcular_macros.py:177-179 | the result is `lo` below the range, `hi` above it, the value itself inside, and always inside a non-empty range |
| Macros.ClampIdempotent | assets/fuzzy_module/calcular_macros.py:177-179 | clamping an already clamped value changes nothing |
| Macros.RuleIndex | assets/fuzzy_module/calcular_macros.py:87-168 | each objective/activity/cholesterol label triple has a position among the 27 rules |
| Macros.RulesCover | assets/fuzzy_module/calcular_macros.py:87-168 | there are exactly 27 rules and every label triple has a rule at its position |
| Macros.RulesUnique | assets/fuzzy_module/calcular_macros.py:87-168 | no two rules share a premise |
| Macros.RuleAtIndex | assets/fuzzy_module/calcular_macros.py:87-168 | every rule sits at the position its premise names, so the table is laid out objective, activity, cholesterol |
| Macros.ProteinByObjective | assets/fuzzy_module/calcular_macros.py:87-168 | cutting and bulking rules conclude high protein, maintenance rules middle protein |
| Macros.HighCholesterolIsCautious | assets/fuzzy_module/calcular_macros.py:87-168 | high cholesterol never concludes high carbohydrate or high fat; only bulking with high activity and low cholesterol concludes high fat |
| Macros.Sanitize | assets/fuzzy_module/calcular_macros.py:202-204 | inputs land in [0,2], [0,10] and [0,300] and in-range inputs are kept |
| Macros.Normalize | assets/fuzzy_module/calcular_macros.py:227-228 | the rescaled shares sum to 100 and each keeps its proportion of the raw total |
| Macros.NormalizeIdempotent | assets/fuzzy_module/calcular_macros.py:227-228 | rescaling shares that already sum to 100 leaves them unchanged |
| Macros.ToGrams | assets/fuzzy_module/calcular_macros.py:235-237 | each gram target is within half a gram of its exact share of the energy at 4, 4 and 9 kcal per gram |
| Macros.ToGramsNearest | assets/fuzzy_module/calcular_macros.py:235-237 | no integer is closer to the exact grams than the rounded targets |
| Macros.CalcularMacros | assets/fuzzy_module/calcular_macros.py:185-252 | fails exactly when the weight is not positive or the inferred shares total zero; otherwise returns the rounded grams of the renormalised shares of the energy of the clamped objective |
| Macros.MacrosUseClampedObjective | assets/fuzzy_module/calcular_macros.py:202-233 | an objective below 0 or above 2 gets the energy of objective 0 or 2 |
| Macros.ExactGramsCarryEnergy | assets/fuzzy_module/calcular_macros.py:233-237 | before rounding, the grams of shares summing to 100 carry exactly the energy target |
| Macros.GramsMatchEnergy | assets/fuzzy_module/calcular_macros.py:227-237 | after rounding, 4·carb + 4·prot + 9·fat is within 8.5 kcal of the energy target |
| Core.DietType | assets/core_engine.py:57-61 | objective 0 is "hipocalórica", 2 "hipercalórica", anything else "normocalórica" |
| Core.LabelDiet | assets/core_engine.py:41-71 | returns the diet type of the objective and the tags of the percentages |
| Core.LabelTagsIff | assets/core_engine.py:63-69 | each tag is present exactly when its threshold (55, 25, 35 per cent) is met; at most three tags, in the fixed order |
| Core.KcalDenominator | assets/core_engine.py:161-164 | the denominator is the macro energy when that is at least 1, and 1 otherwise |
| Core.PercentagesShare | assets/core_engine.py:161-168 | each percentage is 100 times its macro's energy over the denominator, and the three sum to 100 when the macros carry energy |
| Core.PercentagesBounded | assets/core_engine.py:161-168 | non-negative grams give percentages between 0 and 100 |
| Core.StripAssetsPrefix | assets/core_engine.py:185-188 | one leading `assets/` or `assets\` is removed, any other path is unchanged |
| Core.ResolveTableLaws | assets/core_engine.py:176-191 | an absolute path is kept; the result is always absolute under an absolute base; a relative path ends up as a separate component after the base |
| Core.NoAssetsPrefix | assets/core_engine.py:185-188 | a path not starting with `a` is unchanged |
| Core.ChatTableIsDefault | assets/core_engine.py:177-191 | `assets/data/taco_min.csv` and a missing entry resolve to the same file |
| Core.OnePrefixRemoved | assets/core_engine.py:185-188 | only one `assets/` prefix is removed |
| Core.DefaultTableUnderBase | assets/core_engine.py:176-191 | the default table resolves to `data/taco_min.csv` under the assets directory |
| Core.PlanParamsOverride | assets/core_engine.py:203-215 | every key given under `ag` overrides the base entry; absent keys keep the defaults 5 meals, no restrictions, budget 9999 and the resolved path |
| Core.PlanForUser | assets/core_engine.py:74-249 | fails exactly when the macro step or the optimiser fails; otherwise returns the diet type, tags, energy, targets, percentages and the optimiser's menu, metrics and history for the merged parameters, the optimiser's result being the `Outcome` of its run (generations bred one from another, the earliest least-J individual of the last one reported) |
| Core.EnergyUsesRawObjective | assets/core_engine.py:148-156 | objective 3 gets the bulking grams but a zero energy target, because only the macro step clamps it |
| Foods.IsHighFatMeaning | assets/genetic_module/genetic_module.py:138-148 | an item is high-fat exactly when it has at least 15 g fat or a `gordura`, `oleaginosa` or `semente` tag, ignoring case |
| Foods.CarbBaseMeaning | assets/genetic_module/genetic_module.py:117-127 | an item is a carbohydrate base exactly when it has at least 12 g carbohydrate and no less than either other macro |
| Foods.CapOf | assets/genetic_module/genetic_module.py:162-183 | the tightest cap lies in [40, 250] and is under 120, 180, 60, 40 and 120 whenever the dense, protein, fat/whey, peanut and avocado rules apply |
| Foods.ClampStepsIsClamp | assets/genetic_module/genetic_module.py:162-185 | the clamp's successive `min` steps equal one clamp into [20, tightest cap] |
| Foods.FlagsMatchNames | assets/genetic_module/genetic_module.py:177-183 | the whey, peanut and avocado tests are `_nome_match` on those fragments |
| Foods.SafePortion | assets/genetic_module/genetic_module.py:151-185 | the portion is the request clamped into [20, cap]: always in [20, 250], at most 120 for items over 500 kcal, 180 for high-protein and 60 for high-fat items |
| Foods.SafePortionWheyCap | assets/genetic_module/genetic_module.py:178-179 | a name containing "whey" gets at most 60 g |
| Foods.SafePortionPeanutCap | assets/genetic_module/genetic_module.py:180-181 | a name containing "amendoim" gets at most 40 g |
| Foods.SafePortionAvocadoCap | assets/genetic_module/genetic_module.py:182-183 | a name containing "abacate" gets at most 120 g |
| Foods.SafePortionIdempotent | assets/genetic_module/genetic_module.py:151-185 | clamping a clamped portion changes nothing |
| Foods.SafePortionMonotone | assets/genetic_module/genetic_module.py:151-185 | a larger request never gives a smaller portion |
| Foods.SafePortionKeepsAllowed | assets/genetic_module/genetic_module.py:151-185 | a request already within [20, cap] is kept |
| Foods.NutrAdditive | assets/genetic_module/genetic_module.py:188-202 | the nutrients of a + b grams are those of a grams plus those of b grams |
| Foods.NutrOfHundred | assets/genetic_module/genetic_module.py:188-202 | 100 g carries exactly the per-100 g values |
| Foods.ViolatesIff | assets/genetic_module/genetic_module.py:205-221 | no banned words means no violation; otherwise an item violates exactly when some banned word, lower-cased, occurs in its lower-cased name or equals a lower-cased tag |
| Catalog.FirstNonEmpty | assets/genetic_module/genetic_module.py:81-88 | `a or b or c` over cells: the first alias whose cell is present and non-empty, or none when all are empty |
| Catalog.NumberField | assets/genetic_module/genetic_module.py:83-87 | a numeric field with all aliases empty reads as 0; otherwise it is `float` of the first non-empty alias |
| Catalog.KeepsMeansAccepted | assets/genetic_module/genetic_module.py:79-96 | a row is kept exactly when it parses and has positive energy and some positive macro |
| Catalog.LoadCatalog | assets/genetic_module/genetic_module.py:74-98 | the loop's catalogue is `Load` of the rows |
| Catalog.LoadSnoc | assets/genetic_module/genetic_module.py:78-96 | reading one more row is one more loader step |
| Catalog.LoadAccepted | assets/genetic_module/genetic_module.py:90-92 | every loaded item has positive energy and some macro, and there are no more items than rows |
| Catalog.DroppedRowIsInvisible | assets/genetic_module/genetic_module.py:79-96 | a dropped row leaves the catalogue, default ids included, as if it were absent |
| Catalog.LoadIsFold | assets/genetic_module/genetic_module.py:78-96 | the loader is a left fold of its per-row step over the rows in order |
| Catalog.FoldSkips | assets/genetic_module/genetic_module.py:78-96 | a row on which the step changes nothing can be removed from any position without changing the result |
| Catalog.LoadStep | assets/genetic_module/genetic_module.py:79-96 | a kept row appends its item, numbered by the items kept before it; a dropped row changes nothing |
| Params.MergeLaws | assets/core_engine.py:203-215 | merging in no keys changes nothing, and dictionary merging is associative |
| Fitness.ConfigOf | assets/genetic_module/genetic_module.py:263-271 | absent keys take the defaults 45, 14, 15, 10, density 550, no banned words and weights (4, 3.2, 1.8, 1.2, 1); the budget is the given one, absent meaning unbounded |
| Fitness.Keys | assets/genetic_module/genetic_module.py:311 | the keys of the usage dictionary, in insertion order |
| Fitness.MealFoldParts | assets/genetic_module/genetic_module.py:278-300 | the gene loop adds the meal's clamped nutrients to the day and meal totals, 500 per violating gene, the meal's density penalty and its grams per food |
| Fitness.DayFoldParts | assets/genetic_module/genetic_module.py:274-308 | the meal loop yields the day's clamped totals, 500 per violating gene, the density penalty, the per-meal penalties and the usage dictionary |
| Fitness.GeneUpdate | assets/genetic_module/genetic_module.py:279-300 | one pass of the gene loop is one `GeneStep` |
| Fitness.MealPass | assets/genetic_module/genetic_module.py:278-300 | the gene loop computes the meal fold |
| Fitness.VarietyPass | assets/genetic_module/genetic_module.py:311-313 | the loop over the usage dictionary computes the variety penalty |
| Fitness.MealMinimums | assets/genetic_module/genetic_module.py:302-308 | the penalty grows by the meal's carbohydrate and protein shortfall times their weights |
| Fitness.MealUpdate | assets/genetic_module/genetic_module.py:274-308 | one pass of the meal loop is one `MealStep` |
| Fitness.Score | assets/genetic_module/genetic_module.py:316-372 | J is the sum of the weighted errors, the weighted budget excess and the penalties, returned with the day's totals |
| Fitness.EvaluateMenu | assets/genetic_module/genetic_module.py:227-372 | the score equals `Evaluate`, defined from the clamped totals and the penalties |
| FitnessLaws.KcalPenAsymmetric | assets/genetic_module/genetic_module.py:326-330 | each kcal below the target costs 2.2, each above costs 1, none on target |
| FitnessLaws.CarbPenAsymmetric | assets/genetic_module/genetic_module.py:332-336 | a carbohydrate deficit costs 8 per gram, an excess 4 |
| FitnessLaws.ProtPenAsymmetric | assets/genetic_module/genetic_module.py:338-342 | a protein excess costs 10 per gram, a deficit 4 |
| FitnessLaws.FatPenAsymmetric | assets/genetic_module/genetic_module.py:344-348 | a fat deficit costs 10.8 per gram, an excess 9 |
| FitnessLaws.ProtExtraMeaning | assets/genetic_module/genetic_module.py:350-354 | the extra protein penalty is positive exactly above 140 % of the target, at 40 per gram beyond it |
| FitnessLaws.BudgetExcessMeaning | assets/genetic_module/genetic_module.py:356-357 | the budget term is the spending beyond the budget, zero within it or without a budget |
| FitnessLaws.ErrorTermsNonNegative | assets/genetic_module/genetic_module.py:326-348 | the four error terms are never negative |
| FitnessLaws.MealPenaltyMeaning | assets/genetic_module/genetic_module.py:302-308 | a meal meeting both minimums costs nothing; a shortfall in one macro costs the shortfall times its weight |
| FitnessLaws.MenuMealPenaltyNonNegative | assets/genetic_module/genetic_module.py:274-308 | with non-negative weights the per-meal penalties sum to a non-negative value |
| FitnessLaws.GeneDensityMeaning | assets/genetic_module/genetic_module.py:294-296 | a gene pays the density penalty exactly when its food exceeds the threshold, and never a negative one |
| FitnessLaws.MealDensityNonNegative | assets/genetic_module/genetic_module.py:294-296 | a meal's density penalty is non-negative |
| FitnessLaws.MenuDensityNonNegative | assets/genetic_module/genetic_module.py:294-296 | a day's density penalty is non-negative |
| FitnessLaws.MealViolationsMeaning | assets/genetic_module/genetic_module.py:298-300 | a meal counts at most one violation per gene, and none exactly when none of its foods violates |
| FitnessLaws.NoBannedNoViolations | assets/genetic_module/genetic_module.py:298-300 | with no banned words no gene is penalised |
| FitnessLaws.AddUseLookup | assets/genetic_module/genetic_module.py:292 | adding grams under one id changes that entry only |
| FitnessLaws.AddUseKeys | assets/genetic_module/genetic_module.py:292 | adding grams adds the id to the keys if absent and keeps the keys distinct |
| FitnessLaws.MealUsageLookup | assets/genetic_module/genetic_module.py:278-292 | after a meal, each food's entry grew by its clamped grams in the meal |
| FitnessLaws.MenuUsageLookup | assets/genetic_module/genetic_module.py:274-292 | each food's entry is its clamped grams over the whole day |
| FitnessLaws.MealUsageKeys | assets/genetic_module/genetic_module.py:278-292 | after a meal the keys are the earlier ones plus the meal's foods, each once |
| FitnessLaws.MenuUsageKeys | assets/genetic_module/genetic_module.py:274-292 | the usage dictionary has exactly one entry per food of the day |
| FitnessLaws.MealHasIdSnoc | assets/genetic_module/genetic_module.py:278-292 | a meal holds a food exactly when its shorter prefix or its last gene does |
| FitnessLaws.MenuHasIdSnoc | assets/genetic_module/genetic_module.py:274-292 | a day holds a food exactly when its earlier meals or its last meal do |
| FitnessLaws.VarietyPenaltyMeaning | assets/genetic_module/genetic_module.py:310-313 | the variety penalty is non-negative, charges every entry its excess over 350 g, and is zero exactly when no entry exceeds 350 g |
| FitnessLaws.TermsNonNegative | assets/genetic_module/genetic_module.py:360-370 | with non-negative weights and penalties J is non-negative |
| FitnessLaws.ScoreNonNegative | assets/genetic_module/genetic_module.py:227-372 | every menu's J is non-negative under non-negative weights |
| FitnessLaws.RestrictionTermWithoutBans | assets/genetic_module/genetic_module.py:298-300 | with no banned words the restriction term of J is zero |
| FitnessLaws.ClampedMeal | assets/genetic_module/genetic_module.py:727-740 | the reported meal keeps its length and its food indices |
| FitnessLaws.ClampedMenu | assets/genetic_module/genetic_module.py:727-740 | the reported menu keeps its meals and its food indices |
| FitnessLaws.GeneClampInvisible | assets/genetic_module/genetic_module.py:279-300 | a gene with its portion already clamped counts exactly as the original gene |
| FitnessLaws.MealClampInvisible | assets/genetic_module/genetic_module.py:278-300 | a meal with clamped portions has the same totals, penalties and usage |
| FitnessLaws.MenuClampInvisible | assets/genetic_module/genetic_module.py:274-308 | a day with clamped portions has the same totals, penalties and usage |
| FitnessLaws.EvaluateOfClamped | assets/genetic_module/genetic_module.py:718-740 | scoring the reported portions gives the score of the menu they came from |
| FitnessLaws.ClampedMenuIdempotent | assets/genetic_module/genetic_module.py:727-740 | clamping the reported portions again changes nothing |
| Creation.ByKcal | assets/genetic_module/genetic_module.py:403 | a reordering of the catalogue positions in ascending kcal |
| Creation.Cut | assets/genetic_module/genetic_module.py:404 | the cut is at least 1 |
| Creation.BasePoolIsLeastCaloric | assets/genetic_module/genetic_module.py:403-405 | the base pool is the first `min(cut, n)` positions of the kcal order, none more caloric than an item left out |
| Creation.PoolWhereMeaning | assets/genetic_module/genetic_module.py:408-410 | a pool holds exactly the base items with the property when there is one, and the whole base pool otherwise |
| Creation.PoolWhereUsable | assets/genetic_module/genetic_module.py:408-410 | a pool from a non-empty base pool is non-empty and names catalogue items |
| Creation.PoolsOfUsable | assets/genetic_module/genetic_module.py:403-410 | for a non-empty catalogue the three pools can be drawn from |
| Creation.SafePortionClamps | assets/genetic_module/genetic_module.py:151-185 | the portion clamp is a clamp into [20, 250] |
| Creation.DrawGene | assets/genetic_module/genetic_module.py:419-425 | the drawn gene names an item of its pool |
| Creation.MealDraw | assets/genetic_module/genetic_module.py:415-444 | a meal has two or three genes |
| Creation.MealDrawShape | assets/genetic_module/genetic_module.py:415-444 | the genes come from the carbohydrate, protein and neutral pools in that order, name catalogue items and carry portions in [20, 250] |
| Creation.MealDrawPortions | assets/genetic_module/genetic_module.py:419-442 | each portion is a listed portion of its class, clamped for its item |
| Creation.MealDrawPrefersClasses | assets/genetic_module/genetic_module.py:403-425 | the first gene is a carbohydrate base and the second a high-protein item whenever the base pool holds one |
| Creation.IndividualDraw | assets/genetic_module/genetic_module.py:414-446 | `k` meals are drawn |
| Creation.IndividualDrawShape | assets/genetic_module/genetic_module.py:414-446 | every drawn meal has two or three valid genes with clamped portions |
| Creation.IndividualDrawSnoc | assets/genetic_module/genetic_module.py:414-444 | one more meal is one more meal draw from where the previous ones stopped |
| Creation.NextGene | assets/genetic_module/genetic_module.py:419-425 | an item draw then a portion draw, two random values consumed |
| Creation.NewMeal | assets/genetic_module/genetic_module.py:415-444 | a new meal list holding the meal draw |
| Creation.AddMeal | assets/genetic_module/genetic_module.py:414-444 | one new meal list appended, the loop invariant kept |
| Creation.DrawMeals | assets/genetic_module/genetic_module.py:412-446 | new, distinct meal lists holding the draws of `max(0, n)` meals |
| Creation.CreateIndividual | assets/genetic_module/genetic_module.py:378-446 | new, distinct meal lists holding the draws from the pools of the catalogue, portions clamped by `_safe_portion` |
| Operators.CrossAtLaws | assets/genetic_module/genetic_module.py:526 | for a cut inside equal-length parents, each child keeps the length, takes its head from one parent and its tail from the other, and the two children hold exactly the parents' meals |
| Operators.Crossover | assets/genetic_module/genetic_module.py:515-520 | with fewer than two meals the children are the parents and no draw is made |
| Operators.CrossoverCut | assets/genetic_module/genetic_module.py:521-526 | with two meals or more one draw picks a cut strictly inside the parents, and the children are the parents cut there |
| Operators.CrossoverKeepsSlots | assets/genetic_module/genetic_module.py:515-526 | every position of a child holds the meal one of the parents holds there |
| Operators.CrossoverStep | assets/genetic_module/genetic_module.py:515-526 | the children and the generator position are those of `Crossover` |
| Operators.ProtIds | assets/genetic_module/genetic_module.py:497 | every entry is a catalogue position |
| Operators.CarbIds | assets/genetic_module/genetic_module.py:506 | every entry is a catalogue position |
| Operators.SwapStepShape | assets/genetic_module/genetic_module.py:471-474 | the swap keeps the meal's length, valid indices and every gene's grams |
| Operators.PortionStepShape | assets/genetic_module/genetic_module.py:476-487 | the nudge keeps the meal's length and items, and keeps portions in [20, 250] |
| Operators.ReplaceShape | assets/genetic_module/genetic_module.py:494-510 | a repair keeps the meal's length, valid indices and portions in [20, 250] |
| Operators.RepairStepShape | assets/genetic_module/genetic_module.py:489-510 | the repair keeps the meal's length, valid indices and portions in range |
| Operators.RepairKeepsCompleteMeal | assets/genetic_module/genetic_module.py:489-510 | a meal with a high-protein and a carbohydrate-base gene is left alone and consumes no draw |
| Operators.MutateMealShape | assets/genetic_module/genetic_module.py:470-510 | mutating a meal keeps its length, valid indices and portions in range |
| Operators.SwapInPlace | assets/genetic_module/genetic_module.py:471-474 | the array afterwards is `SwapStep` of its old contents |
| Operators.PortionInPlace | assets/genetic_module/genetic_module.py:476-487 | the array afterwards is `PortionStep` of its old contents |
| Operators.ReplaceInPlace | assets/genetic_module/genetic_module.py:494-510 | the array afterwards is `Replace` of its old contents |
| Operators.RepairInPlace | assets/genetic_module/genetic_module.py:489-510 | the array afterwards is `RepairStep` of its old contents |
| Operators.MutateMealInPlace | assets/genetic_module/genetic_module.py:470-510 | the array afterwards is `MutateMeal` of its old contents |
| Operators.MutateAll | assets/genetic_module/genetic_module.py:449-512 | mutating the meals in turn keeps their number, their lengths, valid indices and portions in range |
| Operators.MutateAllSnoc | assets/genetic_module/genetic_module.py:470-510 | one more meal extends the result by that meal's mutation |
| Operators.MutateAt | assets/genetic_module/genetic_module.py:470-510 | the meal at one position is mutated, along with every position sharing its array, and nothing else changes |
| Operators.MutatedPrefixStep | assets/genetic_module/genetic_module.py:470-510 | mutating the next meal only extends the mutated prefix |
| Operators.MutatedPrefixAll | assets/genetic_module/genetic_module.py:470-512 | once every meal is passed the meals are `MutateAll`'s result |
| Operators.MutateStep | assets/genetic_module/genetic_module.py:470-510 | one loop pass keeps the loop invariant |
| Operators.Mutate | assets/genetic_module/genetic_module.py:449-512 | every meal array is edited in place, keeping valid indices and portions in range; for distinct meal arrays the result is `MutateAll` |
| Scaling.RawMealIsClamped | assets/genetic_module/genetic_module.py:538-546 | when every stored portion is one the clamp keeps, a meal's unclamped totals equal the totals the score counts |
| Scaling.RawMenuIsClamped | assets/genetic_module/genetic_module.py:532-547 | the same for a whole day |
| Scaling.MealTotals | assets/genetic_module/genetic_module.py:539-546 | the inner loop adds the meal's nutrients at the stored portions |
| Scaling.Totals | assets/genetic_module/genetic_module.py:532-547 | the totals are the day's nutrients at the stored, unclamped portions |
| Scaling.Factor | assets/genetic_module/genetic_module.py:574-575 | the factor lies in [fmin, fmax], is the ratio target/energy when that is inside, fmin below it and fmax above it |
| Scaling.ScaleFactor | assets/genetic_module/genetic_module.py:568-579 | no scaling when the energy is not positive or the factor is within [0.95, 1.05]; otherwise the clamped factor |
| Scaling.ScaledGene | assets/genetic_module/genetic_module.py:585-588 | the gene keeps its food; its portion is the clamp of the product rounded half to even, so in [20, 250] |
| Scaling.ScaledMeal | assets/genetic_module/genetic_module.py:583-589 | every gene of the meal is scaled, the length kept |
| Scaling.ScaledMenu | assets/genetic_module/genetic_module.py:581-591 | every meal is scaled, the shape kept |
| Scaling.ScaleToKcalSpec | assets/genetic_module/genetic_module.py:550-591 | the result keeps the menu's shape and valid indices |
| Scaling.ScaledMenuShape | assets/genetic_module/genetic_module.py:581-591 | the scaled menu keeps the shape and the food of every gene, each new portion being the clamp of the rounded product |
| Scaling.ScaledMenuIsClamped | assets/genetic_module/genetic_module.py:581-591 | every scaled portion is one the clamp keeps, so the unclamped totals of the scaled menu are the totals the score counts |
| Scaling.ScaleToKcalUnchanged | assets/genetic_module/genetic_module.py:570-579 | the menu comes back unchanged when its energy is not positive or the factor is already within [0.95, 1.05] |
| Scaling.FactorHitsTarget | assets/genetic_module/genetic_module.py:574-575 | a ratio inside the factor range scales the energy exactly to the target, before rounding and clamping |
| Scaling.ScaleMeal | assets/genetic_module/genetic_module.py:583-589 | a new meal list holding the scaled meal |
| Scaling.ScaleMenu | assets/genetic_module/genetic_module.py:581-591 | new, distinct meal lists holding the scaled menu |
| Scaling.ScaleToKcal | assets/genetic_module/genetic_module.py:550-591 | the same menu object when no scaling applies, otherwise new distinct meal lists; in both cases the genes are `ScaleToKcalSpec` |
| Evolution.PlacedIsUsable | assets/genetic_module/genetic_module.py:705-715 | an individual whose meals sit at their own positions never holds one meal list twice, and can be scored and mutated |
| Evolution.Population | assets/genetic_module/genetic_module.py:683 | the genes of every individual, read from the heap |
| Evolution.PopulationValid | assets/genetic_module/genetic_module.py:683 | every individual of the population can be scored |
| Evolution.ScoresOf | assets/genetic_module/genetic_module.py:683 | entry i pairs individual i with the score of its genes |
| Evolution.Scores | assets/genetic_module/genetic_module.py:683 | one entry per individual |
| Evolution.ScoresAt | assets/genetic_module/genetic_module.py:683 | the i-th entry scores the i-th individual |
| Evolution.ScoredPrefixSnoc | assets/genetic_module/genetic_module.py:683 | scoring the next individual extends the scored prefix |
| Evolution.ScoresByEntry | assets/genetic_module/genetic_module.py:683 | a list scoring each individual in turn is the population's scores |
| Evolution.Avaliar | assets/genetic_module/genetic_module.py:675-676 | the individual paired with the score of its genes |
| Evolution.EvaluatePopulation | assets/genetic_module/genetic_module.py:683 | the comprehension computes the population's scores |
| Evolution.RankedFromPopulation | assets/genetic_module/genetic_module.py:683-685 | after ranking every entry scores an individual of the population |
| Evolution.PopulationDraw | assets/genetic_module/genetic_module.py:663-673 | `count` individuals are drawn |
| Evolution.DrawnSnoc | assets/genetic_module/genetic_module.py:663-673 | drawing one more individual extends the population draw |
| Evolution.NextIndividual | assets/genetic_module/genetic_module.py:664-671 | a new individual of `max(0, n)` new, distinct meal lists of two or three valid genes, holding the draw |
| Evolution.SlotsOf | assets/genetic_module/genetic_module.py:663-673 | every meal list of a new individual is known at its own position |
| Evolution.AddIndividual | assets/genetic_module/genetic_module.py:663-673 | adding an individual of new valid meal lists keeps the population invariant and appends its genes |
| Evolution.AddNewIndividual | assets/genetic_module/genetic_module.py:663-673 | one round of the comprehension keeps the population invariant and the draw |
| Evolution.InitialPopulation | assets/genetic_module/genetic_module.py:663-673 | `max(0, pop)` individuals of new meal lists, whose genes are the population draw |
| Evolution.TournamentPick | assets/genetic_module/genetic_module.py:700-703 | the winner is an entry of the ranking |
| Evolution.Tournament | assets/genetic_module/genetic_module.py:700-703 | the winner is `TournamentPick`, an entry of the ranking, three draws consumed, and the genes of every entry are left as they were |
| Evolution.Winners | assets/genetic_module/genetic_module.py:708 | the two winners are the tournament picks at the current position and three draws later, entries of the ranking whose genes the draws leave as they were; six draws consumed |
| Evolution.BreedablePick | assets/genetic_module/genetic_module.py:708 | every entry of the ranking is an individual of `n` placed meals |
| Evolution.CrossoverPlaced | assets/genetic_module/genetic_module.py:709 | children of placed parents are placed: crossover keeps positions |
| Evolution.MutateChild | assets/genetic_module/genetic_module.py:710-711 | a child's genes become `MutateAll` of its old genes, and meal lists it does not hold are untouched |
| Evolution.Breed | assets/genetic_module/genetic_module.py:705-713 | fails exactly when children are needed and fewer than three entries can be sampled; otherwise the list is the elite followed by the two children of every pass of the returned trace, with just as many passes as reach the population size, each pass two tournaments, a crossover and two mutations on the stream where the previous pass stopped |
| Evolution.Pass | assets/genetic_module/genetic_module.py:706-713 | one turn of the loop appends the two children of one more pass to the list and the trace |
| Evolution.Passes | assets/genetic_module/genetic_module.py:706 | the loop runs until the elite and two children per pass reach the population size, and no pass more |
| Evolution.PassesExact | assets/genetic_module/genetic_module.py:706 | a count of passes that reaches the size, the last pass having been let in, is `Passes` |
| Evolution.Offspring | assets/genetic_module/genetic_module.py:707-711 | the winners are the entries `TournamentPick` draws at the current position and three draws later; the children are `Crossover` of their meal lists, then mutated in turn as `Mated` records, starting from the genes the winners held when the pass began |
| Evolution.BredIntro | assets/genetic_module/genetic_module.py:707-711 | two tournaments from the pass's start followed by the crossover and mutations make one pass |
| Evolution.Children | assets/genetic_module/genetic_module.py:709-711 | the children are `Crossover` of the winners' meal lists at the current position; the first child's genes become `MutateAll` of its genes after crossover, then the second's from where that stopped, a shared meal array holding the second mutation's result in both children |
| Evolution.MutatePair | assets/genetic_module/genetic_module.py:710-711 | the two mutations in turn, with no meal array outside the two children changed |
| Evolution.MutateFirst | assets/genetic_module/genetic_module.py:710 | the first child's genes become `MutateAll` of its genes; the second child sees the change only in the arrays it shares |
| Evolution.MutateSecond | assets/genetic_module/genetic_module.py:711 | the second child's genes become `MutateAll` of its genes; the first child sees the change only in the arrays it shares |
| Evolution.MatedIntro | assets/genetic_module/genetic_module.py:709-711 | a crossover and two mutations in turn make the pass that `Mated` describes |
| Evolution.CrossoverContents | assets/genetic_module/genetic_module.py:515-526 | the genes of the crossed meal lists are the crossover of the parents' genes, with the same draw |
| Evolution.CrossAtContents | assets/genetic_module/genetic_module.py:526 | cutting meal lists and then reading their genes is cutting the genes |
| Evolution.SharedInPlace | assets/genetic_module/genetic_module.py:709 | two placed children can share a meal array only at the same position |
| Evolution.Kids | assets/genetic_module/genetic_module.py:712 | two children per pass, in the order they are appended |
| Evolution.KidsSnoc | assets/genetic_module/genetic_module.py:712 | one more pass appends its two children |
| Evolution.LinkedSnoc | assets/genetic_module/genetic_module.py:706-713 | a pass starting where the trace stopped extends the trace |
| Evolution.ChainSnoc | assets/genetic_module/genetic_module.py:706-713 | a pass bred on the ranking from where the trace stopped extends the trace of passes |
| Evolution.PlacedSnoc | assets/genetic_module/genetic_module.py:712 | appending two placed children of `n` meals keeps the list placed |
| Evolution.TakePlaced | assets/genetic_module/genetic_module.py:715 | cutting a placed population keeps its individuals placed |
| Evolution.Inds | assets/genetic_module/genetic_module.py:685 | the individuals of the entries, in order |
| Evolution.EliteShort | assets/genetic_module/genetic_module.py:685-707 | the elite is shorter than the population exactly when `elit` is below its size |
| Evolution.EliteKept | assets/genetic_module/genetic_module.py:705-715 | truncating the children keeps the elite in front |
| Evolution.Rank | assets/genetic_module/genetic_module.py:683-685 | the entries are the stably sorted scores, headed by the earliest least J, and the elite is their first `elit` individuals |
| Evolution.EliteUsable | assets/genetic_module/genetic_module.py:685 | the elite holds placed individuals of `n` meals |
| Evolution.NextPopulation | assets/genetic_module/genetic_module.py:705-715 | fails exactly when sampling must run on fewer than three entries; otherwise the first `pop` of the elite followed by the children of the passes of the trace, every pass bred on the ranking in stream order; the elite stays in front |
| Evolution.Generation | assets/genetic_module/genetic_module.py:681-715 | ranks the population, fails on an empty population or a too small sample; otherwise the next population is `Successor` of the stably sorted scores (their first `elit` individuals, then the children of the passes bred on them, cut to the size) and the history entry holds the J of the earliest least entry |
| Driver.SettingsOf | assets/genetic_module/genetic_module.py:646-650 | the given values, or the defaults 5 meals, population 120, 200 generations, 6 elites and bias 0.6 |
| Driver.LeastScore | assets/genetic_module/genetic_module.py:718-720 | the entry of least J scores a menu whose J is least |
| Driver.HeadIsLeast | assets/genetic_module/genetic_module.py:684-690 | the head of the ranking is an individual of the population with the least J |
| Driver.RecordedSnoc | assets/genetic_module/genetic_module.py:687-697 | a history entry of a least J extends the recorded history |
| Driver.EvolvedSnoc | assets/genetic_module/genetic_module.py:679-715 | one more generation bred from the last one's ranking extends the chain of generations |
| Driver.Step | assets/genetic_module/genetic_module.py:681-715 | one generation: the same failures as `Generation`; the next population is the elite of the ranking of the genes the population holds followed by the children of the passes bred on it; the history entry numbers the generation and holds the J of the earliest least entry, a least J |
| Driver.Evolve | assets/genetic_module/genetic_module.py:662-715 | fails exactly when a generation runs on an empty or too small population; otherwise one history entry per generation, each a least J; the first generation is the initial draw, and each later one is bred from the ranking of the one before on the stream where it stopped |
| Driver.DescribeMeal | assets/genetic_module/genetic_module.py:729-740 | one entry per gene, in order |
| Driver.Describe | assets/genetic_module/genetic_module.py:727-740 | one list of entries per meal, in order |
| Driver.ReportIsScored | assets/genetic_module/genetic_module.py:718-740 | the reported portions are the clamped ones, within the item's cap; the menu of reported portions scores as the menu and reports the same |
| Driver.ReportMeal | assets/genetic_module/genetic_module.py:729-740 | the loop reports the meal |
| Driver.Report | assets/genetic_module/genetic_module.py:727-740 | the loop reports the menu |
| Driver.Best | assets/genetic_module/genetic_module.py:718-720 | the earliest individual of least J, whose genes have the least J of the population |
| Driver.PlacedShape | assets/genetic_module/genetic_module.py:720 | the best individual has `n` valid meals of two or three genes |
| Driver.Present | assets/genetic_module/genetic_module.py:723-740 | the menu is the chosen one scaled with factors in [0.8, 1.8]; the fitness is its score and the report lists it |
| Driver.Finish | assets/genetic_module/genetic_module.py:718-740 | the chosen genes are those of the earliest least-J entry of the final scores, the `final[0]` of the stable sort, so a least J; the reported menu is their scaled form, scored and listed |
| Driver.Run | assets/genetic_module/genetic_module.py:660-753 | fails exactly on an empty population or a too small tournament sample; otherwise `Outcome`: the generations are bred one from another from the initial draw, and the output is that of the earliest least-J individual of the last population, scaled, scored and reported, with the last 10 history entries |
| Driver.GenerateMenu | assets/genetic_module/genetic_module.py:597-753 | fails with no table, an empty catalogue, an empty population or a too small sample, exactly as `ExpectedFailure` predicts from the parameters and the rows at the path; otherwise produces the outcome of `Run` on the loaded catalogue with the stream of the seed (default 42) |
| Random.Below | assets/genetic_module/genetic_module.py:473 | a draw below `n` |
| Random.Unit | assets/genetic_module/genetic_module.py:472 | a draw in [0, 1) |
| Random.Choice | assets/genetic_module/genetic_module.py:419 | the chosen element is in the list |
| Random.Remove | assets/genetic_module/genetic_module.py:701 | the pool after a draw: one shorter, the last live element moved into the drawn slot |
| Random.Sample | assets/genetic_module/genetic_module.py:701 | `k` elements, each from the pool |
| Random.SampleDistinct | assets/genetic_module/genetic_module.py:701 | sampling a pool without duplicates picks distinct elements |
| Random.ConsNoDuplicates | assets/genetic_module/genetic_module.py:701 | a new element in front of a list without duplicates keeps it so |
| Random.RemoveNoDuplicates | assets/genetic_module/genetic_module.py:701 | the pool after a draw keeps no duplicates and no longer holds the drawn element |
| Random.Range | assets/genetic_module/genetic_module.py:660 | `range(n)` as a list of its positions |
| Random.RangeNoDuplicates | assets/genetic_module/genetic_module.py:660 | `range(n)` has no duplicates |
| Random.SampleRange | assets/genetic_module/genetic_module.py:701 | sampling positions gives distinct positions below `n` |
| Random.Rng.constructor | assets/genetic_module/genetic_module.py:643 | a generator at the start of the seed's stream |
| Random.Rng.NextBelow | assets/genetic_module/genetic_module.py:473 | the next draw below `n`, one draw consumed |
| Random.Rng.NextSample | assets/genetic_module/genetic_module.py:701 | the sample, `k` draws consumed |
| Random.Rng.NextUnit | assets/genetic_module/genetic_module.py:472 | the next draw in [0, 1), one draw consumed |
| Sorting.Insert | assets/genetic_module/genetic_module.py:684 | one longer, a permutation of the list plus the element, and ordered when the list was |
| Sorting.ConsSorted | assets/genetic_module/genetic_module.py:684 | an ordered list stays ordered with a head no greater than its first element |
| Sorting.InsertedAfterHead | assets/genetic_module/genetic_module.py:684 | inserting behind the head keeps every key no smaller than the head's |
| Sorting.SortBy | assets/genetic_module/genetic_module.py:684 | an ordered permutation of the list |
| Sorting.Ties | assets/genetic_module/genetic_module.py:684 | the elements of one key, in list order, no more of them than the list holds |
| Sorting.TiesCons | assets/genetic_module/genetic_module.py:684 | the ties of a list with a new head gain that head when it has the key |
| Sorting.TiesOfHead | assets/genetic_module/genetic_module.py:684 | the head of a list is among the ties of its key |
| Sorting.TiesHead | assets/genetic_module/genetic_module.py:684 | the first tie of a key is an element of the list with that key |
| Sorting.TiesPrepend | assets/genetic_module/genetic_module.py:684 | a new head of another key keeps the relation between two lists' ties |
| Sorting.InsertPast | assets/genetic_module/genetic_module.py:684 | inserting behind a smaller head keeps the ties of the rest in order |
| Sorting.InsertTies | assets/genetic_module/genetic_module.py:684 | the inserted element goes in front of the ties of its key and moves no other tie |
| Sorting.SortByStable | assets/genetic_module/genetic_module.py:684 | stability: for every key, the elements of that key leave the sort in the order they entered it |
| Sorting.StableSortUnique | assets/genetic_module/genetic_module.py:684 | two ordered lists with the same ties of every key, in the same order, are equal |
| Sorting.StableSortIsSortBy | assets/genetic_module/genetic_module.py:684 | every stable sort of a list, Python's included, gives `SortBy` |
| Sorting.SortedHeadIsLeast | assets/genetic_module/genetic_module.py:684 | the first element after sorting has the least key |
| Sorting.SortBySorted | assets/genetic_module/genetic_module.py:684 | an ordered list is left as it is |
| Sorting.SortByMembers | assets/genetic_module/genetic_module.py:684 | sorting only rearranges |
| Sorting.FirstLeast | assets/genetic_module/genetic_module.py:719-720 | an element of least key |
| Sorting.SortByHead | assets/genetic_module/genetic_module.py:684 | the stable sort puts the earliest element of least key first |
| Menu.Contents | assets/genetic_module/genetic_module.py:387-392 | the genes of each meal, read from the heap |
| Menu.ContentsSnoc | assets/genetic_module/genetic_module.py:444 | appending a meal appends its genes |
| Chat.InterpretObjective | assets/chatbot/chatbot_engine.py:57-65 | a recognised objective is 0, 1 or 2 |
| Chat.SynonymsDisjoint | assets/chatbot/chatbot_engine.py:59-63 | no answer word belongs to two objectives |
| Chat.InterpretObjectiveIff | assets/chatbot/chatbot_engine.py:57-65 | the objective is 0, 1 or 2 exactly when the trimmed, lower-cased answer is in that objective's word list, and none exactly when it is in no list |
| Chat.ParseFloatComma | assets/chatbot/chatbot_engine.py:68-73 | a decimal comma reads as a decimal point, and text without commas is read unchanged |
| Chat.NoCommaUnchanged | assets/chatbot/chatbot_engine.py:70 | replacing commas leaves text without commas as it is |
| Chat.KeptIff | assets/chatbot/chatbot_engine.py:91 | a piece is kept, stripped and non-empty, exactly when it is not blank |
| Chat.ParseRestrictionsLaws | assets/chatbot/chatbot_engine.py:83-92 | a "none" answer bans nothing; otherwise the result is empty or `banidos` alone, holding exactly the non-blank stripped comma-separated pieces of the lower-cased answer |
| Chat.RestrictionsOfLaws | assets/chatbot/chatbot_engine.py:88-92 | on an already lower-cased, stripped answer: a "none" answer bans nothing, otherwise the result is empty or `banidos` holding exactly the non-blank stripped pieces |
| Chat.KeptClean | assets/chatbot/chatbot_engine.py:91 | pieces kept from a comma split are stripped and hold no comma |
| Chat.ItemLines | assets/chatbot/chatbot_engine.py:136-139 | one line per item of a meal |
| Chat.AppendMeal | assets/chatbot/chatbot_engine.py:134-140 | the loop appends the meal's header, one line per item and a blank line |
| Chat.MenuText | assets/chatbot/chatbot_engine.py:128-141 | the text is the menu lines joined by line breaks |
| Chat.MenuLinesCount | assets/chatbot/chatbot_engine.py:134-140 | the menu has one line per item plus two per meal |
| Chat.NoNewlineInNumber | assets/chatbot/chatbot_engine.py:139 | a printed number holds no line break |
| Chat.ItemLinesNoNewline | assets/chatbot/chatbot_engine.py:136-139 | item lines hold no line break when the food names hold none |
| Chat.MenuLinesNoNewline | assets/chatbot/chatbot_engine.py:134-140 | no menu line holds a line break when no food name does |
| Chat.MenuTextLines | assets/chatbot/chatbot_engine.py:128-141 | splitting the menu text at line breaks gives back its lines |
| Chat.ChatState.constructor | assets/chatbot/chatbot_engine.py:31-35 | a new conversation is at `inicio` with no answers and not finished |
| Chat.CholesterolOf | assets/chatbot/chatbot_engine.py:348-351 | the stored cholesterol is the answer when it is a positive integer and 190 otherwise, always positive |
| Chat.StoreObjective | assets/chatbot/chatbot_engine.py:310-320 | the objective answer is rejected with the state unchanged, or stored with the stage moved to `peso` |
| Chat.StoreWeight | assets/chatbot/chatbot_engine.py:323-332 | a weight that is not a positive number is rejected; otherwise it is stored and the stage moves to `atividade` |
| Chat.StoreActivity | assets/chatbot/chatbot_engine.py:335-344 | an activity outside 0..10 is rejected; otherwise it is stored and the stage moves to `colesterol` |
| Chat.StoreCholesterol | assets/chatbot/chatbot_engine.py:347-357 | the cholesterol (190 by default) is stored and the stage moves to `n_refeicoes` |
| Chat.StoreMeals | assets/chatbot/chatbot_engine.py:360-370 | a number of meals outside 3..7 is rejected; otherwise it is stored and the stage moves to `restricoes` |
| Chat.StoreRestrictions | assets/chatbot/chatbot_engine.py:373-380 | the parsed restrictions are stored and the stage moves to `orcamento` |
| Chat.StoreBudget | assets/chatbot/chatbot_engine.py:387-428 | the budget is stored (0 as 9999), the plan builder runs on the collected answers with the chat's fixed table and optimiser settings, and the stage ends as `fim` with the plan or `erro` |
| Chat.StoreAnswer | assets/chatbot/chatbot_engine.py:305-428 | the answer is dispatched on the stage to the question that stage asks |
| Chat.AfterPlan | assets/chatbot/chatbot_engine.py:431-440 | after a plan, an "again" word starts a new conversation and anything else leaves the state as it was |
| Chat.Process | assets/chatbot/chatbot_engine.py:282-443 | the reply and the new state are those of the conversation machine; the state is changed in place except after a reset, which returns a new state and leaves the old one untouched |
| Chat.CommandsDisjoint | assets/chatbot/chatbot_engine.py:293-298 | no reset word is a quit word |
| Chat.QuitKeepsState | assets/chatbot/chatbot_engine.py:292-295 | a quit word at any stage only sets `terminou`, keeping stage and answers |
| Chat.ResetGivesFresh | assets/chatbot/chatbot_engine.py:297-300 | a reset word at any stage gives a new conversation and the welcome text |
| Chat.RejectionsKeepState | assets/chatbot/chatbot_engine.py:310-386 | an unknown objective, a non-positive or unreadable weight, an activity outside 0..10, a number of meals outside 3..7 and a negative or unreadable budget each leave the conversation exactly as it was |
| Chat.CholesterolAlwaysAdvances | assets/chatbot/chatbot_engine.py:347-357 | every cholesterol answer advances the stage and stores a positive value, 190 for an unreadable or non-positive one |
| Chat.BudgetStored | assets/chatbot/chatbot_engine.py:383-428 | a usable budget is stored (0 as 9999) and the conversation ends in `fim` exactly when the plan is ready, carrying that plan, or else in `erro` |
| Chat.AnswerStores | assets/chatbot/chatbot_engine.py:305-428 | an answer is rejected with nothing changed, or stores an accepted value under the key of its question and moves one stage on |
| Chat.ObjectiveStores | assets/chatbot/chatbot_engine.py:310-320 | the objective answer is rejected or stored under `objetivo` with the stage at `peso`, keeping the conversation well formed |
| Chat.ObjectiveOutcomeStores | assets/chatbot/chatbot_engine.py:310-320 | an objective code outside 0..2 or missing leaves the conversation alone; a valid one is stored under `objetivo` with the stage at `peso` |
| Chat.WeightStores | assets/chatbot/chatbot_engine.py:323-332 | the weight answer is rejected or stored under `peso` with the stage at `atividade`, keeping the conversation well formed |
| Chat.WeightOutcomeStores | assets/chatbot/chatbot_engine.py:323-332 | a missing or non-positive weight leaves the conversation alone; a positive one is stored under `peso` with the stage at `atividade` |
| Chat.ActivityStores | assets/chatbot/chatbot_engine.py:335-344 | the activity answer is rejected or stored under `atividade` with the stage at `colesterol`, keeping the conversation well formed |
| Chat.ActivityOutcomeStores | assets/chatbot/chatbot_engine.py:335-344 | an activity level outside 0..10 or missing leaves the conversation alone; a valid one is stored under `atividade` with the stage at `colesterol` |
| Chat.CholesterolStores | assets/chatbot/chatbot_engine.py:347-357 | the cholesterol answer is always stored under `colesterol` with the stage at `n_refeicoes` |
| Chat.CholesterolOutcomeStores | assets/chatbot/chatbot_engine.py:347-357 | a positive cholesterol value is stored under `colesterol` with the stage at `n_refeicoes`, keeping the conversation well formed |
| Chat.MealsStores | assets/chatbot/chatbot_engine.py:360-370 | the meals answer is rejected or stored under `n_refeicoes` with the stage at `restricoes` |
| Chat.MealsOutcomeStores | assets/chatbot/chatbot_engine.py:360-370 | a meal count outside 3..7 or missing leaves the conversation alone; a valid one is stored under `n_refeicoes` with the stage at `restricoes` |
| Chat.RestrictionsStores | assets/chatbot/chatbot_engine.py:373-380 | the restrictions answer is always stored under `restricoes` with the stage at `orcamento` |
| Chat.RestrictionsOutcomeStores | assets/chatbot/chatbot_engine.py:373-380 | any restriction map is stored under `restricoes` with the stage at `orcamento` |
| Chat.BudgetOutcomeShape | assets/chatbot/chatbot_engine.py:387-428 | after a usable budget only the budget and the stage change, and the stage is `fim` or `erro` |
| Chat.BudgetStores | assets/chatbot/chatbot_engine.py:383-428 | the budget answer is rejected or stored under `orcamento_max` with the stage at `fim` or `erro` |
| Chat.BudgetReplyStores | assets/chatbot/chatbot_engine.py:383-428 | a missing or negative budget leaves the conversation alone; otherwise it is stored under `orcamento_max` and the stage ends at `fim` or `erro` |
| Chat.PlainIsAnswer | assets/chatbot/chatbot_engine.py:290-305 | a message that is no command is handled by the stage dispatch on its trimmed text |
| Chat.StagesInOrder | assets/chatbot/chatbot_engine.py:305-440 | a plain answer leaves the conversation as it was or moves it exactly one stage along objective, weight, activity, cholesterol, meals, restrictions, budget, end; after the end it can only restart |
| Chat.AnswerInOrder | assets/chatbot/chatbot_engine.py:305-440 | the stage dispatch leaves the conversation as it was or moves it exactly one stage on, and after the end it can only restart |
| Chat.AnswerStoresKey | assets/chatbot/chatbot_engine.py:305-428 | an answer that changes the conversation stores exactly the key of the question asked, with a value that question accepts |
| Chat.FreshWellFormed | assets/chatbot/chatbot_engine.py:31-35 | a new conversation holds no answer and is well formed |
| Chat.KeepsAfterStore | assets/chatbot/chatbot_engine.py:318-387 | storing the answer for the current question and moving one stage on keeps a conversation well formed |
| Chat.AnswerKeepsWellFormed | assets/chatbot/chatbot_engine.py:305-428 | every answer keeps the conversation holding exactly the accepted answers of the questions before its stage |
| Chat.BudgetKeepsWellFormed | assets/chatbot/chatbot_engine.py:383-428 | the budget answer keeps the conversation well formed |
| Chat.BudgetReplyKeepsWellFormed | assets/chatbot/chatbot_engine.py:383-428 | whatever the parsed budget, the budget step keeps a well-formed conversation well formed |
| Chat.StoreIsStores | assets/chatbot/chatbot_engine.py:318-387 | storing an accepted value changes exactly that key and moves to the next stage |
| Chat.StoreKeepsWellFormed | assets/chatbot/chatbot_engine.py:318-387 | storing the answer to the current question keeps every stored key answered before the new stage |
| Chat.KeepsIfStored | assets/chatbot/chatbot_engine.py:305-428 | a rejected or stored answer keeps the conversation well formed |
| Chat.NextKeepsWellFormed | assets/chatbot/chatbot_engine.py:282-443 | every message keeps a conversation well formed, so `dados` never holds an answer from a later question nor misses an earlier one |
| Chat.BudgetFindsAnswers | assets/chatbot/chatbot_engine.py:389-410 | in a well-formed conversation the budget answer always finds every answer the plan builder reads (no `KeyError`), with a positive weight, objective 0..2 and 3 to 7 meals, and the optimiser runs with 120 individuals, 200 generations and elitism 6; only an empty food table remains as an optimiser failure |
| PrepareData.AnyInIff | assets/alimentos/prepara_dados.py:91 | a chain of `in` tests joined by `or` holds exactly when some keyword occurs |
| PrepareData.FirstMatch | assets/alimentos/prepara_dados.py:89-102 | the chosen branch is the first whose keywords occur, every earlier one failing; none means the `else` |
| PrepareData.CategorizeIsFirstMatch | assets/alimentos/prepara_dados.py:89-102 | the category is that of the first group (carbohydrate, protein, dairy, fruit, vegetable) with a keyword in the lower-cased name, `outros` otherwise |
| PrepareData.RestrictionIsFirstMatch | assets/alimentos/prepara_dados.py:110-119 | the restriction is lactose, gluten or animal by the first group with a keyword in the lower-cased name, `nenhuma` otherwise |
| PrepareData.LowerOfNoUpper | assets/alimentos/prepara_dados.py:90 | a name with no capital letter is its own lower case |
| PrepareData.RiceWithChicken | assets/alimentos/prepara_dados.py:91-94 | "arroz com frango" is carbohydrate, the earlier group |
| PrepareData.CheeseBread | assets/alimentos/prepara_dados.py:89-119 | "pão de queijo" is carbohydrate with the lactose restriction |
| PrepareData.NoUpperInCheeseBread | assets/alimentos/prepara_dados.py:111 | "pão de queijo" is its own lower case |
| PrepareData.CheeseInCheeseBread | assets/alimentos/prepara_dados.py:112 | "pão de queijo" contains "queijo" |
| PrepareData.CarbFirst | assets/alimentos/prepara_dados.py:91-92 | a lower-case name mentioning rice or bread is carbohydrate whatever else it mentions |
| PrepareData.LactoseFirst | assets/alimentos/prepara_dados.py:112-113 | a lower-case name mentioning cheese has the lactose restriction whatever else it mentions |
| PrepareData.RoleOf | assets/alimentos/prepara_dados.py:35-45 | a column title gets the role of the first branch it matches, none of the earlier ones matching; carbohydrate columns never mention fibre |
| PrepareData.RolesOf | assets/alimentos/prepara_dados.py:34-45 | one role per column, in order |
| PrepareData.DetectColumns | assets/alimentos/prepara_dados.py:34-45 | a role is found exactly when some column has it, and it names the last such column |
| PrepareData.SnocColumn | assets/alimentos/prepara_dados.py:34-45 | one more column keeps the loop invariant: earlier roles stay and the column's own role now points at it |
| PrepareData.SelectColumns | assets/alimentos/prepara_dados.py:34-61 | the selection fails exactly when some role is missing; otherwise each of the five columns is the last column with its role |
| PrepareData.AllFound | assets/alimentos/prepara_dados.py:55 | the five `None` tests together hold exactly when every role was found |
| PrepareData.CleanNumber | assets/alimentos/prepara_dados.py:71-78 | a cleaned cell holds no comma and no trace mark `Tr` or `tr` |
| PrepareData.CleanSteps | assets/alimentos/prepara_dados.py:74-76 | each replacement removes its pattern and the later ones bring none of the earlier back |
| Text.StripKeepsChar | assets/alimentos/prepara_dados.py:77 | stripping adds no character the text lacked |
| PrepareData.TraceIsZero | assets/alimentos/prepara_dados.py:75-79 | the trace mark "Tr" reads as 0 |
| PrepareData.ReplaceWhole | assets/alimentos/prepara_dados.py:75 | a pattern that is the whole text is replaced by the replacement |
| PrepareData.ReadsZero | assets/alimentos/prepara_dados.py:76-79 | "0" survives the remaining clean-up steps and reads as zero |
| PrepareData.CommaIsPoint | assets/alimentos/prepara_dados.py:74 | "12,5" is cleaned to "12.5" |
| PrepareData.CommaBecomesPoint | assets/alimentos/prepara_dados.py:74 | the comma of "12,5" becomes a point |
| PrepareData.NoTraceMark | assets/alimentos/prepara_dados.py:75-77 | text without `T`, `t` or surrounding whitespace is untouched by the trace replacements and the strip |
| PrepareData.ReplaceAbsent | assets/alimentos/prepara_dados.py:74-76 | a pattern that does not occur leaves the text unchanged |
| PrepareData.ReplaceKeepsChar | assets/alimentos/prepara_dados.py:74-76 | replacing by text without a character adds none of it |
| PrepareData.ReplaceKeepsPairOut | assets/alimentos/prepara_dados.py:75-76 | replacing `tr` by 0 creates no `Tr`, and replacing `Tr` creates no `tr` |
| PrepareData.StripKeepsOut | assets/alimentos/prepara_dados.py:77 | stripping creates no pattern the text lacked |
| PrepareData.SliceKeeps | assets/alimentos/prepara_dados.py:77 | a pattern in a slice occurs in the whole text |
| Scenarios.GradedLaws | assets/alimentos/pipeline_teste.py:24-34 | a mapped value is 2 exactly when the low word occurs, 8 exactly when only the high word does, 5 otherwise, always in 0..10 |
| Scenarios.MissingIsMiddle | assets/alimentos/pipeline_teste.py:28 | a missing answer reads as empty text and gets the middle grade 5 |
| Scenarios.MappersIgnoreCase | assets/alimentos/pipeline_teste.py:24-60 | the three mappers give the same value for an answer and its lower case |
| Scenarios.MappersInRange | assets/alimentos/pipeline_teste.py:24-60 | income, time and health always map to 2, 5 or 8, and a missing answer to 5 |
| Scenarios.LowScenarioGrades | assets/alimentos/pipeline_teste.py:68-75 | "baixa", "pouco" and "delicada" map to 2 |
| Scenarios.MiddleScenarioGrades | assets/alimentos/pipeline_teste.py:76-83 | "media", "medio" and "ok" map to 5 |
| Scenarios.HighScenarioGrades | assets/alimentos/pipeline_teste.py:84-91 | "alta", "muito" and "boa" map to 8 |
| Scenarios.MiddleWord | assets/alimentos/pipeline_teste.py:24-60 | a lower-case answer with neither word gets 5 |
| Scenarios.LowWord | assets/alimentos/pipeline_teste.py:24-60 | the low word itself gets 2 |
| Scenarios.HighWord | assets/alimentos/pipeline_teste.py:24-60 | the high word itself, lacking the low word, gets 8 |
| Scenarios.ShorterHasNot | assets/alimentos/pipeline_teste.py:29 | a word longer than the text does not occur in it |
| Scenarios.GenerationsBounded | assets/alimentos/pipeline_teste.py:129-141 | a priority in 0..10 gives 20 to 40 generations, 40 only at priority 10 |
| Scenarios.GenerationsMonotone | assets/alimentos/pipeline_teste.py:129-141 | a higher priority never gives fewer generations |
| Common.RoundHalfEven | assets/fuzzy_module/calcular_macros.py:235-237 | `round` gives an integer within one half of its argument, and an exact tie goes to the even neighbour |
| Common.RoundIsNearest | assets/fuzzy_module/calcular_macros.py:235-237 | no integer is strictly nearer the argument than its rounding |
| Common.Trunc | assets/alimentos/pipeline_teste.py:141 | `int` on a float truncates toward zero |
| Macros.RoundWithinHalf | assets/fuzzy_module/calcular_macros.py:235-237 | each rounded gram count is within half a gram of the exact one |
| Core.ShareBounded | assets/core_engine.py:165-168 | a macro's share of the kcal denominator lies in 0..100 |
| Text.Split | assets/chatbot/chatbot_engine.py:91 | `split` on one character always gives at least one piece, none holding the separator |
| Text.SplitJoin | assets/chatbot/chatbot_engine.py:141 | splitting a joined text gives back the pieces when none holds the separator |
| Text.JoinSplit | assets/chatbot/chatbot_engine.py:91 | joining the pieces of a split gives back the text |
| Text.StripSpec | assets/chatbot/chatbot_engine.py:290 | stripping twice is stripping once |
| Text.StripSlice | assets/chatbot/chatbot_engine.py:290 | `strip` keeps one contiguous slice of its input |
| Text.StripDropsSpaces | assets/chatbot/chatbot_engine.py:290 | what `strip` drops on either side of that slice is whitespace |
| Text.StripEnds | assets/chatbot/chatbot_engine.py:290 | what `strip` keeps has no whitespace at either end |
| Text.LowerIdempotent | assets/chatbot/chatbot_engine.py:58 | lower-casing twice is lower-casing once |
| Text.LowerConcat | assets/chatbot/chatbot_engine.py:58 | lower-casing distributes over concatenation |
| Text.ContainsIff | assets/alimentos/prepara_dados.py:91 | `pat in s` holds exactly when the pattern occurs at some position |
| Text.ParseIntOfString | assets/chatbot/chatbot_engine.py:76-80 | `int(str(n)) == n` |
| Text.ParseDecimalOfInt | assets/chatbot/chatbot_engine.py:68-73 | `float(str(n)) == n` for every integer |
| Text.ParseDecimalOfNatural | assets/chatbot/chatbot_engine.py:68-73 | `float(str(n)) == n` for every natural number |
| Text.ParseDecimalOfNegative | assets/chatbot/chatbot_engine.py:68-73 | `float(str(n)) == n` for every negative number |
| Text.PointSplit | assets/chatbot/chatbot_engine.py:68-73 | digits, a point and digits read as the integer part plus the fraction scaled by a power of ten |
| Text.NatToDigitsValue | assets/chatbot/chatbot_engine.py:76-80 | the decimal digits of `n` have the value `n` |
| Text.ReplaceCharSpec | assets/chatbot/chatbot_engine.py:70 | replacing one character by another keeps the length, changes exactly the occurrences of the old character and leaves none |

## Left out

- **File reading.**
  - Opening files and `csv.DictReader` (genetic_module.py:76-77) are not modelled: a row is a map from column name to text.
  - The table is a parameter from a path to its rows, and a missing file is a path with no rows.
  - `os.path` is modelled only as the string operations used on the table path.
- **pandas in prepara_dados.py.**
  - Not modelled: reading the spreadsheet, `astype(str)`, `dropna`, the blank-name filter, `strip` of names, `drop_duplicates` and `to_csv`.
  - The random cost column (line 107) is random by design and is left out.
  - `pd.to_numeric(errors="coerce")` is the plain decimal parser of `Text`, with `None` standing for NaN.
- **Number parsing.**
  - `float()` is read in plain decimal notation only: no exponent, `inf`, `nan` or digit underscores.
  - `int()` accepts no non-ASCII (Unicode) digits.
- **Text functions.**
  - `str.lower` covers ASCII and Latin-1 capitals only.
  - `strip` removes the characters `str.isspace` accepts.
- **Floating point.** Floats are exact reals, so results that depend on IEEE rounding are not captured.
- **String formatting.** The `:.1f`/`:.0f` summary string `resumo` (core_engine.py:225-231) and `_formatar_plano_bruto` (chatbot_engine.py:98-125) are not modelled.
- **Random numbers.**
  - The Mersenne Twister and seed reproducibility are not modelled: the draws come from a supplied stream.
  - `randbelow(n)` is the next draw modulo `n`, and `random()` is the next draw's low 53 bits over 2^53.
  - `Random.Sample` always uses CPython's pool method. CPython switches to its set method for large populations, which consumes draws differently.
- **skfuzzy inference.**
  - `ControlSystemSimulation`, membership functions and centroid defuzzification are not modelled.
  - The inference is the parameter `infer`, from clamped inputs to the three raw percentages.
  - The matplotlib debug views of `calcular_macros` are left out.
- **The priority fuzzy system.** `calcular_prioridade`, `regras.py` and both `constantes.py` are left out: they are library configuration. `Scenarios.Generations` takes the priority as an input.
- **External services.**
  - Not modelled: the OpenAI client, the prompt and `_formatar_plano_com_ia`, the Flask endpoint (`api_chat.py`), `app.py`, the WhatsApp bots and the command-line loop.
  - The chat's reply texts are named by `Chat.Reply` constructors, and a finished plan is the `PlanReady` reply carrying the plan.
- **Scenario script.** `rodar_cenario` in pipeline_teste.py calls a `gerar_cardapio` with another signature from a module that is not part of this model. Only its mappers and its generation count are modelled.
- **Operators.MutateMeal:** the fallback `max(20, min(200, ...))` for a call without a context (genetic_module.py:483-485) is not modelled, because the optimiser always passes the catalogue as context.
- **Operators.MutateMeal, Operators.MutateAll and Operators.Mutate:** these require every meal to be non-empty.
  - Every meal the optimiser creates has two or three genes.
  - For an empty meal the source's item swap would raise on `randrange(0)`.
- **Operators.Mutate:** it states its result as `MutateAll` of the old genes only when the individual's meal arrays are distinct. When two positions share one array, the model states only that every meal keeps its length, valid indices and portions in range. Inside the optimiser `Evolution` proves the arrays are distinct.
- **Prints and debug output.** All `print` calls and logging are left out.
- **GenerateMenu:** a missing CSV file makes `open` raise `FileNotFoundError` (genetic_module.py:76). The model reads the table as a map from path to rows, so a missing file is a path with no rows and ends in `EmptyTable`, the `RuntimeError` of genetic_module.py:659.
- **Evolution.Breed:** each pass records the genes its winners hold when the pass begins and each child's genes right after its own mutation. Crossover copies only the outer list, so a later pass can mutate a meal array an earlier child shares; the genes the next generation is ranked on are read again from the heap (`Population`) and are not derived from the trace.
