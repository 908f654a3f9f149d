# AIDish nutrition and spirit engine in Dafny

AIDish is a student nutrition tracker. A user records meals: one list of
foods per (date, slot), where the slot is breakfast, lunch or dinner. The
service totals the nutrition of each meal and grades intake against
reference standards by gender and age. Each meal also feeds the user's
"nutrition spirit" (营养精灵), a virtual companion that gains experience,
levels up and grows four capped attributes.

This project models that engine and proves properties of the model:

- the meal-slot classifier;
- per-food scaling and meal totals;
- recording a meal into the store, where the meal replaces its slot;
- the spirit's experience, level-up loop and attribute growth;
- the day view and the range statistics, which sum raw catalog values;
- standards lookup, seven-tier grading and suggestion text;
- the alternative 70% deficiency report;
- the spirit info page and renaming;
- registration: its checks and the gender-based seed spirit.

Modules, by concern:

- `Wrappers`: `Option` and `Result`.
- `Nutrients`: the 13 nutrients in their key order, the per-food profile with `Option<real>` micronutrients, and the totals record.
- `MealSlot`: slot codes `"1"`, `"2"`, `"3"` and the hour classifier.
- `Aggregation`: scaling by amount, and `calculate_total_nutrition` as a loop.
- `Grading`: the standards table, tiers and `analyze_nutrition`.
- `DeficiencyReport`: `get_nutrition_analysis`.
- `Progression`: the level-up machine, and class `Spirit` with mutable fields.
- `SpiritStatus`: the BMI, strength and IQ classifiers.
- `Database`: class `Db`, holding the users, spirits, meal records and food catalog.
- `MealRoutes`: `record_meal` and `update_spirit_attributes`.
- `MealStatistics`: `get_meals` and `get_statistics`.
- `SpiritRoutes`: spirit info, and rename with `str.strip`.
- `Auth`: `register`.

Operations that mutate state or loop in the source are Dafny methods on
classes or with loops, each proved against a specification function:

- the spirit's updates;
- the store updates of `record_meal` and `register`;
- the accumulation loops of the totals, the day view and the statistics;
- the required-field and amount loops.

The decision logic is functions with lemmas.

Quirks of the source that the model keeps on purpose:

- The level-up threshold is level × 200, but the info page divides by level × 100, so the shown percentage can reach 150% and more (`Progression.ExpPercentageOver100`).
- Intake inside the normal 95–105% band gets the "decrease" text. Intake above 120% gets the "increase" text (`Grading.NormalIntakeGetsDecreaseText`, `Grading.ExcessIntakeGetsIncreaseText`).
- A food id repeated in one request is refused (`MealRoutes.RepeatedFoodRejected`).
- The day view and the statistics ignore the stored amount (`MealStatistics.DaySumIgnoresAmount`). `record_meal` scales by it (`MealRoutes.RecordedTotal`).
- Magnesium has no row in the deficiency report's recommendations, so it is never flagged (`DeficiencyReport.MagnesiumNeverDeficient`).
- The spirit attributes are declared `Integer` columns but grow by fractions. They are `real` here.

Interfaces:

- Times and dates are inputs:
  - `hour` is the hour of the day;
  - `today` and `now` are integer day and time stamps;
  - dates are integer day numbers;
  - an unparsable date argument is the `Malformed` case of `DateArg`.
- A JSON body is a request datatype whose absent keys are `None`.
- The store is a `Db` object whose methods reproduce the route's effect once the transaction commits.

## Model

| member | source | states |
|---|---|---|
| MealSlot.MealTypeByHour | src/routes/nutrition.py:26-35 | total over 0..23: lunch iff 10 ≤ h < 15, dinner iff 15 ≤ h < 23, breakfast iff h < 10 or h = 23 |
| MealSlot.ParseMealType | src/routes/nutrition.py:71-76 | a slot is parsed exactly for "1", "2", "3" and its code is the input |
| MealSlot.ParseCode | src/routes/nutrition.py:71-76 | parsing a slot's code gives the slot back (round trip) |
| Nutrients.Index | src/routes/nutrition.py:260-274 | every nutrient has a position in the fixed 13-key order |
| Nutrients.AllNutrientsDistinct | src/routes/nutrition.py:260-274 | the 13 keys are pairwise distinct (position is injective) |
| Nutrients.ZeroIsZero | src/routes/nutrition.py:376-392 | the initial nutrition dict is 0 for every nutrient |
| Nutrients.Contribution | src/routes/nutrition.py:279-280 | a `None` value adds nothing, a present value adds itself |
| Nutrients.Add | src/routes/nutrition.py:340-343 | adding totals adds each nutrient |
| Nutrients.DivideBy | src/routes/nutrition.py:552-566 | each average times the day count gives the total |
| Nutrients.TotalsEq | src/routes/nutrition.py:260-274 | two totals records agreeing on every key are equal |
| Aggregation.Scale | src/routes/nutrition.py:136-148 | a scaled profile has an entry for a nutrient iff it is a macro or the raw value is truthy |
| Aggregation.ScaleValue | src/routes/nutrition.py:136-148 | a scaled entry is present iff the nutrient is a macro or the food's value is truthy; if present it is value × amount |
| Aggregation.ScaleMicroValue | src/routes/nutrition.py:139-148 | a micronutrient stays present exactly when truthy (non-None, non-zero) and is then scaled |
| Aggregation.ScaleMacroValue | src/routes/nutrition.py:136-138 | calories, protein and fat are always value × amount |
| Aggregation.ScaledContribution | src/routes/nutrition.py:136-148 | what a scaled entry adds to a total is the raw contribution × amount (a stored 0 adds nothing either way) |
| Aggregation.NutrientSumConcat | src/routes/nutrition.py:276-280 | the sum over a concatenation is the sum of the sums |
| Aggregation.NutrientSumPermutation | src/routes/nutrition.py:276-280 | the per-nutrient sum does not depend on the order of the foods |
| Aggregation.AccumulateProfile | src/routes/nutrition.py:278-280 | one food's present values are added key by key, absent ones skipped |
| Aggregation.CalculateTotalNutrition | src/routes/nutrition.py:258-282 | each of the 13 totals is the sum of the foods' non-None values |
| Aggregation.EmptyMealTotalsZero | src/routes/nutrition.py:260-274 | an empty list totals 0 on every nutrient |
| Aggregation.TotalsIgnoreOrder | src/routes/nutrition.py:258-282 | two reorderings of one food list get equal totals |
| Grading.BracketOf | src/routes/nutrition.py:653 | the "<=18" column is used iff age ≤ 18 |
| Grading.NutritionStandard | src/routes/nutrition.py:596-654 | the table value for nutrient, gender and the age bracket; every standard is positive |
| Grading.NutritionGrade | src/routes/nutrition.py:656-706 | the seven ranges partition the reals as <60, [60,80), [80,95), [95,105], (105,120], (120,140], >140; level in 1..4 and 4 iff 95 ≤ p ≤ 105 |
| Grading.Percentage | src/routes/nutrition.py:714 | percentage × standard = intake × 100 |
| Grading.SuggestionTextsDiffer | src/routes/nutrition.py:720-757 | the increase, decrease and keep texts are pairwise different |
| Grading.AnalyzeNutrition | src/routes/nutrition.py:708-769 | standard, percentage and tier as above; increase text iff level < 3, decrease text iff level > 3, keep text iff level = 3 |
| Grading.NormalIntakeGetsDecreaseText | src/routes/nutrition.py:748-755 | intake within 95–105% of the standard receives the "decrease" text |
| Grading.ExcessIntakeGetsIncreaseText | src/routes/nutrition.py:720-747 | intake above 120% of the standard receives the "increase" text |
| Grading.ProteinScenario | src/routes/nutrition.py:603-605 | a 15-year-old male's protein standard is 75 and 75 g grades as 100%, normal |
| Grading.AnalyzeAll | src/routes/nutrition.py:569-576 | one analysis per nutrient, in key order, each of that nutrient's value |
| DeficiencyReport.Recommended | src/routes/nutrition.py:788-817 | the gender's recommended daily value, which is positive |
| DeficiencyReport.Join | src/routes/nutrition.py:884 | joining no items gives "", one item gives itself |
| DeficiencyReport.JoinThree | src/routes/nutrition.py:884 | three items are joined as a, b and c with ", " between them |
| DeficiencyReport.DeficientAmong | src/routes/nutrition.py:838-855 | the listed nutrients are at most those examined and each is deficient |
| DeficiencyReport.DeficientAmongMembers | src/routes/nutrition.py:839-851 | a nutrient is listed iff it is among those examined, its average is reported, and its ratio to the recommendation is below 70 |
| DeficiencyReport.StatusFor | src/routes/nutrition.py:858-861 | "良好" iff 0 deficiencies, "一般" iff 1..3, "需要注意" iff more than 3 |
| DeficiencyReport.Take | src/routes/nutrition.py:884 | the first min(3, n) foods |
| DeficiencyReport.GetNutritionAnalysis | src/routes/nutrition.py:771-890 | the deficiencies and suggestions list exactly the deficient nutrients in recommendation order, pairwise; the status follows the count |
| DeficiencyReport.MagnesiumNeverDeficient | src/routes/nutrition.py:788-817 | magnesium is never reported, because the recommendation list does not include it |
| Progression.Min | src/routes/nutrition.py:222-240 | the smaller of two values |
| Progression.CountPositive | src/routes/nutrition.py:236-237 | the number of positive totals among the listed nutrients, between 0 and their count |
| Progression.CountPositiveAppend | src/routes/nutrition.py:236-237 | listing one more nutrient adds 1 to the count exactly when its total is positive |
| Progression.ExpGain | src/routes/nutrition.py:192-207 | the gain is 5 + 2 × #{calories, protein, fat, calcium > 0}; 5 ≤ gain ≤ 13, 5 iff none positive, 13 iff all four |
| Progression.LevelUp | src/routes/nutrition.py:212-217 | the loop's result: the level never drops, the exp ends below level × 200 and stays non-negative, and exp + the thresholds consumed = the exp before |
| Progression.ConsumedStep | src/routes/nutrition.py:213-217 | one more level consumes that level's threshold |
| Progression.ConsumedMonotone | src/routes/nutrition.py:213-217 | reaching a higher level consumes at least as much |
| Progression.LevelUpUnique | src/routes/nutrition.py:213-217 | any (level, exp) meeting the loop's exit conditions is the loop's result |
| Progression.LevelUpCompose | src/routes/nutrition.py:209-217 | levelling up then adding a gain and levelling up again equals levelling up once with the gain |
| Progression.WeightAfter | src/routes/nutrition.py:220-223 | unchanged unless calories > 0; then + calories / 20000 for up to 2000 kcal, min(weight + 0.1, 100) from 2000 kcal on, exactly 100 where the gain reaches the cap; never decreasing from within the cap |
| Progression.StrengthAfter | src/routes/nutrition.py:225-228 | unchanged unless protein > 0; then + protein / 300 for up to 30 g, min(strength + 0.1, 100) from 30 g on, exactly 100 where the gain reaches the cap; never decreasing from within the cap |
| Progression.HeightAfter | src/routes/nutrition.py:230-233 | height grows by 0.05 up to 200 only when calcium or vitamin D is positive, else unchanged |
| Progression.IqAfter | src/routes/nutrition.py:235-240 | iq grows by 0.05 per positive vitamin among A, B1, B2, C, D, E, capped at 100, unchanged when none |
| Progression.AfterMeal | src/routes/nutrition.py:209-242 | the spirit after a meal: level not lower, exp accounting as in LevelUp, identity kept, and an in-range spirit stays in range |
| Progression.Spirit.ApplyMeal | src/routes/nutrition.py:192-248 | returns the gain and the display threshold level × 200; the new state is AfterMeal of the old |
| Progression.Spirit.AddExperience | src/routes/nutrition.py:209-217 | the level-up while loop: the new (level, exp) is LevelUp of the old exp + gain, other fields unchanged |
| Progression.Spirit.GrowAttributes | src/routes/nutrition.py:219-240 | the four attributes become WeightAfter, StrengthAfter, HeightAfter, IqAfter; nothing else changes |
| Progression.Spirit.Rename | src/routes/spirit.py:92-94 | only the name and the update time change |
| Progression.ExpPercentage | src/routes/spirit.py:28-31 | the percentage × (level × 100) = exp × 100, non-negative exactly when exp is |
| Progression.ExpPercentageRange | src/routes/spirit.py:27-31 | with 0 ≤ exp < level × 200 the shown percentage lies in [0, 200) |
| Progression.ExpPercentageOver100 | src/routes/spirit.py:28-31 | a level-1 spirit with 150 exp, still below its threshold of 200, shows 150% |
| SpiritStatus.StrengthLevel | src/routes/spirit.py:151-160 | weak iff < 30, normal iff [30,60), strong iff [60,90), super iff ≥ 90 |
| SpiritStatus.IqLevel | src/routes/spirit.py:162-171 | dull iff < 30, normal iff [30,60), clever iff [60,90), genius iff ≥ 90 |
| SpiritStatus.CalculateBmi | src/routes/spirit.py:132-149 | bmi × (height/100)² = weight; status <18.5 偏瘦, [18.5,24) 正常, [24,28) 偏胖, ≥28 肥胖 |
| Database.Db.constructor | src/models/models.py:6-119 | an empty store over a catalog keyed by food id satisfies the store invariant |
| Database.Db.SetMeals | src/models/models.py:58-64 | replacing the meal rows with rows that name catalog foods keeps the store invariant (keys match rows, user ids below the next id, one distinct in-range spirit per registered user, meal rows naming catalog foods) and changes nothing else |
| MealRoutes.ResolveSlot | src/routes/nutrition.py:70-76 | an empty code takes the hour's slot; otherwise a slot is found iff the code is "1", "2" or "3" |
| MealRoutes.ResolveDate | src/routes/nutrition.py:79-85 | the given date, today when absent, an error iff malformed |
| MealRoutes.FoodIds | src/routes/nutrition.py:88 | the requested ids, in request order |
| MealRoutes.ElementsCard | src/routes/nutrition.py:88-91 | the number of distinct ids is at most the list length, equal iff no id repeats |
| MealRoutes.FoundAll | src/routes/nutrition.py:88-91 | the found count equals the id count iff every id is in the catalog and no id repeats |
| MealRoutes.FirstBadAmount | src/routes/nutrition.py:110-116 | none iff every amount is positive; otherwise the id of the first non-positive one |
| MealRoutes.FirstBadAt | src/routes/nutrition.py:110-116 | the first non-positive amount in request order is the one reported |
| MealRoutes.CheckMeal | src/routes/nutrition.py:67-116 | the checks in the route's order: NoFoods iff no foods; then BadMealType iff a non-empty code other than "1", "2", "3"; then BadDate iff the date is malformed; then UnknownFood iff the catalog lookup finds fewer rows than ids (an unknown or repeated id); a BadAmount error comes only once every id is known and distinct, and names the first bad amount; on success the slot is the hour's when no code is given and the code's otherwise, and the date is the given one or today |
| MealRoutes.MealAccepted | src/routes/nutrition.py:67-116 | a request is accepted iff it has foods, a valid or empty slot code, a parsable date, only catalog ids, no repeated id and all amounts positive |
| MealRoutes.RepeatedFoodRejected | src/routes/nutrition.py:88-91 | a food id given twice makes the request fail |
| MealRoutes.InSlot | src/routes/nutrition.py:94-98 | the records selected for a (user, date, slot) key all come from the store and carry that key |
| MealRoutes.OutsideSlot | src/routes/nutrition.py:100-103 | the records kept after the delete are exactly the store's records that carry another key |
| MealRoutes.ReplaceSlot | src/routes/nutrition.py:94-124 | a record is in the new store iff it was in the old one under another key or is one of the new records |
| MealRoutes.InSlotConcat | src/routes/nutrition.py:94-98 | selecting a key distributes over concatenation |
| MealRoutes.OutsideSlotConcat | src/routes/nutrition.py:100-103 | deleting a key distributes over concatenation |
| MealRoutes.UniformSlot | src/routes/nutrition.py:119-127 | records that all carry one key are exactly that key's selection |
| MealRoutes.InSlotOutside | src/routes/nutrition.py:100-103 | after deleting a key it has no records and every other key keeps its records |
| MealRoutes.ReplaceSlotContents | src/routes/nutrition.py:94-127 | after the replacement the key holds exactly the new records and every other key is unchanged |
| MealRoutes.ReplaceSlotIdempotent | src/routes/nutrition.py:94-127 | recording the same meal twice leaves the store as recording it once |
| MealRoutes.OutsideIdempotent | src/routes/nutrition.py:100-103 | deleting a key twice is deleting it once |
| MealRoutes.NewRecords | src/routes/nutrition.py:118-127 | one record per requested food, all under the meal's key |
| MealRoutes.Recorded | src/routes/nutrition.py:129-150 | one response entry per requested food |
| MealRoutes.RecordedOneValue | src/routes/nutrition.py:130-150 | each response entry contributes the catalog value × amount |
| MealRoutes.RecordedTotal | src/routes/nutrition.py:129-153 | the meal total is, per nutrient, the sum of the catalog values × amounts |
| MealRoutes.BuildRecords | src/routes/nutrition.py:106-150 | the loop fails iff some amount is not positive, naming the first; otherwise it yields the new records and the scaled entries |
| MealRoutes.MealTotal | src/routes/nutrition.py:152-153 | the meal total equals the scaled sum over the request |
| MealRoutes.PrepareMeal | src/routes/nutrition.py:62-150 | the checks fail exactly as CheckMeal says, with its error; on success the records and the response list |
| MealRoutes.UpdateSpiritAttributes | src/routes/nutrition.py:176-256 | nothing and no report without a spirit; otherwise the spirit becomes AfterMeal of its old state and the report shows it |
| MealRoutes.CommitMeal | src/routes/nutrition.py:94-159 | the slot's records are replaced, the total is applied to the spirit, the rest of the store is unchanged |
| MealRoutes.RecordMeal | src/routes/nutrition.py:62-170 | fails exactly as CheckMeal says and then changes nothing; on success the store is the slot replacement, the total is the scaled sum and the spirit is advanced |
| MealStatistics.DayCountPositive | src/routes/nutrition.py:307-316 | a date has records iff some record of the user is on it |
| MealStatistics.DaySumNoRecords | src/routes/nutrition.py:326 | a date without records sums to 0 |
| MealStatistics.DaySplitsIntoSlots | src/routes/nutrition.py:339-343 | the day total is the sum of the three slot totals |
| MealStatistics.DaySumIgnoresAmount | src/routes/nutrition.py:339-343 | the day sums read raw catalog values, so the stored amounts do not change them |
| MealStatistics.InSlotKnown | src/routes/nutrition.py:329-337 | a slot's records name catalog foods |
| MealStatistics.SlotExtended | src/routes/nutrition.py:336-343 | a record of a slot appends its food view and adds its raw values to that slot |
| MealStatistics.SlotUnchanged | src/routes/nutrition.py:336-343 | a record of another key leaves a slot's view as it was |
| MealStatistics.CollectRecord | src/routes/nutrition.py:329-343 | one loop step keeps the collection equal to the slot views, the day count and the day sums of the records read |
| MealStatistics.CollectDay | src/routes/nutrition.py:319-343 | after the loop the three slots hold their records' views and raw sums, and the total is the day sum |
| MealStatistics.GetMeals | src/routes/nutrition.py:284-374 | InvalidDate iff the date is malformed; then NoRecords iff no record of the user that day; then UnknownUser iff the user is missing; success iff the day has records and the user exists, with the three slot views, a total equal to the day sum and to the sum of the slot totals, and its analysis |
| MealStatistics.DaysTotalStep | src/routes/nutrition.py:529-545 | one more record adds its raw value to the range total exactly when it belongs to a grouped date |
| MealStatistics.DaysTotalIsRangeSum | src/routes/nutrition.py:529-545 | summing the per-day totals equals summing the window's records |
| MealStatistics.IntRangeCard | src/routes/nutrition.py:531 | the range [start, end] has end − start + 1 days |
| MealStatistics.DaysBound | src/routes/nutrition.py:531-547 | the days with records are at most the days of the range |
| MealStatistics.OpenDay | src/routes/nutrition.py:490-507 | a date met for the first time starts with zero meals and zero totals |
| MealStatistics.OtherDaysKept | src/routes/nutrition.py:509-523 | a record changes its own date's entry only |
| MealStatistics.GroupedSkip | src/routes/nutrition.py:471-475 | a record outside the selection leaves the grouping as it is |
| MealStatistics.GroupRecord | src/routes/nutrition.py:488-523 | one loop step keeps the table equal to the per-date counts and raw sums |
| MealStatistics.GroupByDay | src/routes/nutrition.py:486-528 | one entry per distinct date in the window, with its count and raw sums |
| MealStatistics.SumDays | src/routes/nutrition.py:532-545 | the range totals are the sum of the per-day totals |
| MealStatistics.RateBounds | src/routes/nutrition.py:548 | the compliance rate lies in (0, 100] |
| MealStatistics.StartOf | src/routes/nutrition.py:457-461 | the given start, or end − 6 when absent |
| MealStatistics.Summarize | src/routes/nutrition.py:529-576 | the days count, the days with records, totals equal to the range sum, averages = totals / days count, the rate and the analysis of the averages |
| MealStatistics.GetStatistics | src/routes/nutrition.py:433-594 | InvalidDate iff a date is malformed; then StartAfterEnd iff start > end; then NoRecords iff the user has no record in [start, end]; then UnknownUser iff the user is missing; otherwise the statistics of the range |
| SpiritRoutes.GetSpiritInfo | src/routes/spirit.py:17-50 | an error iff the user has no spirit; otherwise the fields, next level at level × 100 and a percentage in [0, 200) |
| SpiritRoutes.Leading | src/routes/spirit.py:71 | the leading run of whitespace, ending at a non-space |
| SpiritRoutes.KeptEnd | src/routes/spirit.py:71 | the length without trailing whitespace, ending on a non-space |
| SpiritRoutes.Strip | src/routes/spirit.py:71 | the result is a piece of the input, only whitespace is outside it, and it neither starts nor ends with whitespace |
| SpiritRoutes.StripEmpty | src/routes/spirit.py:71-77 | a name strips to nothing iff it is all whitespace |
| SpiritRoutes.StripIdempotent | src/routes/spirit.py:71 | stripping twice is stripping once |
| SpiritRoutes.UpdateSpiritName | src/routes/spirit.py:67-112 | empty after strip, longer than 50, no spirit: in that order, each error leaving the spirit unchanged; otherwise only the name and the update time change |
| Auth.Presence | src/routes/auth.py:28-31 | one flag per required key, in list order |
| Auth.FirstAbsent | src/routes/auth.py:28-31 | none iff every flag is set; otherwise the first unset one |
| Auth.FirstAbsentAt | src/routes/auth.py:29-31 | the first missing key in list order is the one reported |
| Auth.FindMissing | src/routes/auth.py:28-31 | the for loop over the keys returns the first missing one |
| Auth.ParseGender | src/routes/auth.py:34-35 | only "男" and "女" are genders, "男" being male |
| Auth.NoneAbsent | src/routes/auth.py:28-31 | when no key is missing, every field is present |
| Auth.CheckRegistration | src/routes/auth.py:27-47 | each error as an iff in the route's order: MissingField iff some required key is absent, then BadGender, BadHeight (0,300], BadWeight (0,500], BadAge (0,150] and UsernameTaken, each iff every earlier check passes and its own fails; on success the user name, name and gender come from the request, the user name is new and the height, weight and age are in range |
| Auth.RegistrationAccepted | src/routes/auth.py:27-47 | accepted iff every key is present, the gender is valid, height in (0,300], weight in (0,500], age in (0,150] and the user name is new |
| Auth.MissingFieldFirst | src/routes/auth.py:28-31 | a missing key is reported before any value is checked, naming the first missing key at or before it |
| Auth.SeedState | src/routes/auth.py:66-90 | level 1, exp 0, within every cap; 男 gets (100, 20, 40, 40) and "的小勇士", 女 gets (95, 18, 45, 35) and "的小仙女"; named after the user's name |
| Auth.SeedsDiffer | src/routes/auth.py:66-77 | the male seed is taller, heavier and stronger, the female seed cleverer |
| Auth.ValidateRegistration | src/routes/auth.py:25-47 | the checks in the route's order give exactly CheckRegistration's verdict |
| Auth.Register | src/routes/auth.py:25-94 | a refused request changes nothing; an accepted one adds the user under the next id and exactly one fresh seeded spirit, keeping the other spirits, the meals and the catalog |

## Left out

- Flask routing, JWT identity and tokens, `request.get_json`, `jsonify` and HTTP status codes: outcomes are `Result` values with an error datatype.
- SQLAlchemy sessions and queries: the store is the `Db` class, and each route's effect is applied at the point of commit. The 500 paths (an exception followed by `rollback`) are not modelled.
- `datetime.now()`, `strptime` and `strftime`: the hour, today and the time stamp are parameters, and dates are integer day numbers.
- `round(...)` and the `"{:.1f}%"` formatting: presentation only. Percentages and values are exact reals, not floats.
- `login`, password hashing and token creation: foreign calls. The password is kept only for its presence.
- `get_foods`: a plain projection of the catalog.
- `get_spirit_status`: it is not called by any route, so only its three classifiers are modelled.
- The seeding scripts and app configuration: bulk I/O.
- MealRoutes.RecordMeal: a body whose `foods` is not a list, or whose item has no `food_id`, is not modelled. The request type always carries a list of items with ids. A missing `amount` defaults to 1, as in the route.
- MealRoutes.RecordMeal: the route returns 400 for a bad amount after deleting the slot's old records inside the still-open session. This model takes the request-scoped session to be discarded, so the store is unchanged on that error.
- MealRoutes.RecordMeal: a JSON `null` amount, which makes the `amount <= 0` comparison raise inside the try and so takes the rollback and 500 path, is not modelled; `amount` is either absent (one portion) or a number. A non-string `date`, which makes the date parser raise outside the try (an uncaught 500), is not modelled either.
- MealStatistics.GetMeals: within one slot, foods are listed in store order. The database's order within a slot is unspecified.
- MealStatistics.GetMeals: a missing user crashes the route. The model reports this as `UnknownUser`, after the not-found check, as the route reaches it.
- MealStatistics.GetStatistics: a missing user is reported as `UnknownUser` in the same way.
- MealStatistics.GetStatistics: the unused per-day `meals` list of the grouping is not built.
- SpiritStatus.CalculateBmi: requires a non-zero height, where the source would raise ZeroDivisionError.
- Auth.Register: `height`, `weight` and `age` are typed as real, real and int. Non-numeric JSON values, and `null` for a present key, are not modelled.
- SpiritRoutes.UpdateSpiritName: a non-string `name` is not modelled. `len` counts code points, and `Strip` removes Python's default whitespace set.
