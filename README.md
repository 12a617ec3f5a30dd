# eat-the-gym core in Dafny

A Dafny model of the logic of *eat-the-gym* ("헬스장 파먹기"). This web app lets a user pick the gym equipment
they have access to, choose a weekly frequency, a split and a goal, and get a workout routine back. The model covers:

- **The deterministic routine generator** (`RoutineGenerator`, `routine_generator.dfy`):
  - the exercise table and the goal, split and tips tables;
  - the seeded linear-congruential Fisher–Yates shuffle, run on an array;
  - the bounded random draw;
  - the equipment/muscle-group filter;
  - the per-day selection: compounds first, a cap, one exercise per name, and sets/reps/rest drawn from the goal's ranges;
  - the weekly loop, which cycles the split template and pushes a placeholder into an empty day.
- **The equipment catalog** (`EquipmentData`, `equipment_data.dfy`):
  - the per-category machine/barbell/dumbbell lists;
  - the category tabs and the settings option lists;
  - facts about these constants: tags, unique ids, order, and the option values.
- **The equipment selection screen** (`EquipmentSelector`, `equipment_selector.dfy`):
  - the operations that derive a new selection (toggle, select/clear a sub-category, add/remove custom equipment);
  - the `custom-{category}[-{sub}]-{name}` id codec;
  - the counts, including the accumulating loop of `getCategoryCount`;
  - the screen's own UI state, as a class.
- **The AI routine generator without the network** (`AIRoutineGenerator`, `ai_routine_generator.dfy`):
  - `parseAIResponse` over a model of parsed JSON values;
  - the equipment-name mapping of the prompt;
  - the key and provider checks made before any request.
- **The results view** (`RoutineResults`, `routine_results.dfy`):
  - the `"name (type)"` splitter and the type labels;
  - the day, copy-all and share texts;
  - the set total and the day colour.
- **The trainer chat** (`AITrainer`, `ai_trainer.dfy`): the chat prompt and the checks made before the request.
- **The wizard page** (`HomePage`, `home_page.dfy`): a class holding the page state, whose methods are the handlers.
- **The step indicator** (`StepIndicator`, `step_indicator.dfy`).
- **The settings screen** (`WorkoutSettings`, `workout_settings.dfy`): the slider position/value mapping and the single-field config updates.
- **Shared definitions:**
  - `JsStrings` (`js_strings.dfy`) gives the JavaScript string built-ins the code relies on: `split`, `join`, `trim`, `startsWith`, `String(n)` and `parseInt`.
  - `Wrappers` (`wrappers.dfy`) holds `Option` and `Result`. A `Result` failure stands for an exception the source throws.

Functions are the specification. Where the source works step by step, a method is proved equal to its function:
- `SeededShuffle` swaps in an array;
- `KeepFirstOfEachName` grows the `seen` set;
- `BuildWeek` pushes days;
- `CountSelectedInLists` accumulates `count`.

Lemmas state the properties the source promises.

The catalog's back pullover is keyed `db-pullover-back`
(src/entities/equipment/model/equipment-data.ts:77). The generator's table keys its back pullover on `db-pullover`
(src/entities/routine/model/routine-generator.ts:61), which is the chest dumbbell pullover's id. Both tables are modelled as written:
- `RoutineGenerator.BackPulloverHasNoExercise` proves that selecting the back pullover yields no exercise;
- `RoutineGenerator.BackPulloverNeedsChestId` proves that the back exercise is reached only through the chest id.

## Model

| member | source | states |
|---|---|---|
| RoutineGenerator.ParamsFor | src/entities/routine/model/routine-generator.ts:104-109 | every goal's ranges are well formed (lo ≤ hi); an unknown goal gets the hypertrophy ranges (`goalParams[goal] \|\| goalParams.hypertrophy`, line 172) |
| RoutineGenerator.GoalLabel | src/entities/routine/model/routine-generator.ts:111-116 | the label is never empty; an unknown goal is labelled "근비대" (line 292) |
| RoutineGenerator.TemplateFor | src/entities/routine/model/routine-generator.ts:119-136 | a template has at least one day; an unknown split (such as "0" or "4") falls back to the "3" template (line 241) |
| RoutineGenerator.FocusLabelsFor | src/entities/routine/model/routine-generator.ts:138-142 | one non-empty focus label per template day, with the same fallback as the template (line 242) |
| RoutineGenerator.GenerateTips | src/entities/routine/model/routine-generator.ts:204-236 | five tips: the goal's list, or the hypertrophy list for an unknown goal |
| RoutineGenerator.LcgStep | src/entities/routine/model/routine-generator.ts:148 | the masked state lies in [0, 2^31); NaN becomes 0 |
| RoutineGenerator.SwapIndex | src/entities/routine/model/routine-generator.ts:149 | the swap partner j satisfies j ≤ i |
| RoutineGenerator.SwapPermutes | src/entities/routine/model/routine-generator.ts:150 | one swap keeps the multiset of entries |
| RoutineGenerator.ShuffleFromPermutes | src/entities/routine/model/routine-generator.ts:147-151 | the descending swap loop from any index and state is a permutation |
| RoutineGenerator.ShuffledPermutes | src/entities/routine/model/routine-generator.ts:144-153 | `seededShuffle` returns a permutation of its argument (same length, same multiset) |
| RoutineGenerator.SeededShuffle | src/entities/routine/model/routine-generator.ts:144-153 | the in-place swap loop on a fresh array equals the shuffle specification; the argument is a value and is left as it was |
| RoutineGenerator.RandBetween | src/entities/routine/model/routine-generator.ts:155-158 | for min ≤ max the draw lies in [min, max] |
| RoutineGenerator.FilterTemplates | src/entities/routine/model/routine-generator.ts:160-164 | an entry is kept iff it is in the table, its equipment id is selected and its muscle group is one of the day's |
| RoutineGenerator.FilterTemplatesAppend | src/entities/routine/model/routine-generator.ts:160-164 | the filter works part by part, so it keeps table order |
| RoutineGenerator.OfKind | src/entities/routine/model/routine-generator.ts:175-176 | the compounds (or isolations) of the available list, and nothing else |
| RoutineGenerator.OfKindPartition | src/entities/routine/model/routine-generator.ts:175-176 | compounds and isolations together are exactly the available entries (multiset) |
| RoutineGenerator.Take | src/entities/routine/model/routine-generator.ts:181 | `slice(0, max)` has length min(max, length) |
| RoutineGenerator.DedupFrom | src/entities/routine/model/routine-generator.ts:184-189 | the name filter keeps entries of the input whose names are not yet seen, with pairwise-distinct names |
| RoutineGenerator.DedupKeepsEveryName | src/entities/routine/model/routine-generator.ts:184-189 | every name of the input not seen before survives the filter |
| RoutineGenerator.DedupStep | src/entities/routine/model/routine-generator.ts:185-188 | one callback step: a seen name is skipped; an unseen one is kept and recorded |
| RoutineGenerator.DedupKeepsCompoundsFirst | src/entities/routine/model/routine-generator.ts:184-189 | filtering never moves an isolation before a compound |
| RoutineGenerator.KeepFirstOfEachName | src/entities/routine/model/routine-generator.ts:184-189 | the loop that grows `seen` computes the name filter |
| RoutineGenerator.BuildExercisesForDay | src/entities/routine/model/routine-generator.ts:166-202 | the method (shuffles, slice, filter, draws) computes the day's exercises as specified |
| RoutineGenerator.ShuffledKinds | src/entities/routine/model/routine-generator.ts:175-179 | the shuffled compounds are all compounds, the shuffled isolations all isolations, and all come from `available` |
| RoutineGenerator.KindsInOrder | src/entities/routine/model/routine-generator.ts:181 | compounds followed by isolations, cut at any length, have no isolation before a compound |
| RoutineGenerator.ChosenTemplatesProperties | src/entities/routine/model/routine-generator.ts:175-189 | a day's templates number at most the cap, have distinct names, come from `available`, and put compounds first |
| RoutineGenerator.ChosenTemplatesNonEmpty | src/entities/routine/model/routine-generator.ts:175-189 | with something available and a cap of at least one, the day is not empty |
| RoutineGenerator.DayExercisesInRange | src/entities/routine/model/routine-generator.ts:191-200 | exercise k carries template k's name, sets and reps within the goal's ranges, rest `"{n}초"` with n within the rest range, and no type |
| RoutineGenerator.DayExercisesCount | src/entities/routine/model/routine-generator.ts:166-202 | a day has at most the cap of exercises, and none iff nothing is available |
| RoutineGenerator.FirstCodeUnit | src/entities/routine/model/routine-generator.ts:244 | `charCodeAt(0)` is a UTF-16 code unit for a non-empty id, and NaN for an empty one |
| RoutineGenerator.EquipmentSeed | src/entities/routine/model/routine-generator.ts:244 | the `reduce` sum is NaN iff some selected id is empty, and otherwise non-negative |
| RoutineGenerator.RoutineSeed | src/entities/routine/model/routine-generator.ts:244 | the seed is NaN iff the frequency or the split does not parse or some selected id is empty |
| RoutineGenerator.DayCount | src/entities/routine/model/routine-generator.ts:240-253 | the loop runs a positive number of times iff the frequency parses to a positive number, and then that many times |
| RoutineGenerator.DayCountOfNumber | src/entities/routine/model/routine-generator.ts:240-253 | a frequency written as the decimal text of n gives n days |
| RoutineGenerator.MaxPerDay | src/entities/routine/model/routine-generator.ts:247 | the cap is 4 exactly for beginners and 5 otherwise |
| RoutineGenerator.Days | src/entities/routine/model/routine-generator.ts:251-276 | the pushed week has exactly the loop's number of days |
| RoutineGenerator.DaysAt | src/entities/routine/model/routine-generator.ts:253-276 | day k of the week is the k-th planned day |
| RoutineGenerator.DayExercises | src/entities/routine/model/routine-generator.ts:166-202 | a day draws at most the cap of exercises, with pairwise distinct names (`slice(0, maxExercises)` then the `seen` filter) |
| RoutineGenerator.PlanDay | src/entities/routine/model/routine-generator.ts:253-275 | day i is labelled "Day i+1", has the focus of template entry i mod len, and is never empty |
| RoutineGenerator.Week | src/entities/routine/model/routine-generator.ts:251-276 | the week has exactly the loop's number of days |
| RoutineGenerator.PlanDayFrom | src/entities/routine/model/routine-generator.ts:253-275 | the loop body's day (label, focus, exercises or placeholder) is the planned day |
| RoutineGenerator.BuildWeek | src/entities/routine/model/routine-generator.ts:251-276 | the frequency loop pushes exactly the planned days, in order |
| RoutineGenerator.GenerateRoutine | src/entities/routine/model/routine-generator.ts:238-300 | the result holds the planned week for the parsed frequency, the name `"{goalLabel} {split}분할 루틴"`, the description and the goal's tips |
| RoutineGenerator.PlanDayShape | src/entities/routine/model/routine-generator.ts:253-275 | day i is labelled "Day i+1", uses template entry i mod len and its focus label, and has 1..cap exercises; it holds just the placeholder iff nothing is available |
| RoutineGenerator.PlanDayCycles | src/entities/routine/model/routine-generator.ts:254-255 | the template cycles: day i + len has the same focus as day i |
| RoutineGenerator.PlanDayInRange | src/entities/routine/model/routine-generator.ts:253-275 | every exercise of a day is the placeholder or has sets, reps and rest in the goal's ranges |
| RoutineGenerator.PlanDayNamesDistinct | src/entities/routine/model/routine-generator.ts:253-275 | the exercise names of a day are pairwise distinct |
| RoutineGenerator.UnknownSplitFallsBack | src/entities/routine/model/routine-generator.ts:241-242 | a split with no template uses the "3" template and its focus labels |
| RoutineGenerator.EquipNames | src/entities/routine/model/routine-generator.ts:279-290 | the description counts only non-empty catalog names of selected ids, at most one per id |
| RoutineGenerator.EquipNamesOne | src/entities/routine/model/routine-generator.ts:279-290 | one id contributes its catalog name iff the catalog has it under a non-empty name |
| RoutineGenerator.EquipNamesAppend | src/entities/routine/model/routine-generator.ts:279-290 | the names of concatenated selections are the concatenated names, in order |
| RoutineGenerator.RoutineName | src/entities/routine/model/routine-generator.ts:295 | the name is the goal label, a space, the split unchanged, then "분할 루틴" |
| RoutineGenerator.Description | src/entities/routine/model/routine-generator.ts:296 | the text is, piece by piece, the number of catalog names found, "개 기구를 활용한 주 ", the frequency as given, "회 ", the split, "분할 ", the goal label and " 프로그램입니다." |
| RoutineGenerator.FilterNoneNeeded | src/entities/routine/model/routine-generator.ts:160-164 | an id that no table entry needs yields no exercise |
| RoutineGenerator.UpperBodyNeedNoBackPullover | src/entities/routine/model/routine-generator.ts:19-63 | no chest, shoulder or back entry of the table is keyed on `db-pullover-back` |
| RoutineGenerator.LowerBodyNeedNoBackPullover | src/entities/routine/model/routine-generator.ts:64-101 | no legs, arms or core entry of the table is keyed on `db-pullover-back` |
| RoutineGenerator.BackPulloverHasNoExercise | src/entities/routine/model/routine-generator.ts:19-101 | the catalog's back-pullover id `db-pullover-back` matches no generator entry, so it yields no exercise for any muscle group |
| RoutineGenerator.BackPulloverNeedsChestId | src/entities/routine/model/routine-generator.ts:61 | the generator's back pullover is keyed `db-pullover`, a chest id that is not in the back catalog |
| EquipmentData.SubCategoryKey | src/entities/equipment/model/equipment-data.ts:14 | the three sub-category keys contain no dash |
| EquipmentData.CategoryTable | src/entities/equipment/model/equipment-data.ts:24-119 | `exercisesByCategory[id]` is present iff id is a catalog key, and then it is that key's record |
| EquipmentData.LookupFrom | src/entities/equipment/model/equipment-data.ts:24-119 | a record lookup by key finds a value iff some entry has the key, and returns that entry's value |
| EquipmentData.FindById | src/entities/equipment/model/equipment-data.ts:24-119 | the lookup finds an entry with the id, or reports that none has it |
| EquipmentData.IdsOfLists | src/entities/equipment/model/equipment-data.ts:24-119 | a category's ids are its machine, barbell and dumbbell ids, in that order |
| EquipmentData.CatalogIdsListed | src/entities/equipment/model/equipment-data.ts:24-119 | the catalog's ids, in table order, are the five categories' id lists |
| EquipmentData.CatalogIdsDistinct | src/entities/equipment/model/equipment-data.ts:24-119 | the ids of the whole catalog are pairwise distinct |
| EquipmentData.CatalogIdsUnique | src/entities/equipment/model/equipment-data.ts:24-119 | no two catalog entries share an id |
| EquipmentData.TaggedByLists | src/entities/equipment/model/equipment-data.ts:24-119 | a category record is consistently tagged when each of its lists carries the category and its own key |
| EquipmentData.CatalogTagsConsistent | src/entities/equipment/model/equipment-data.ts:24-119 | every entry's `category` is its outer key and its `subCategory` its inner key |
| EquipmentData.PulloverIds | src/entities/equipment/model/equipment-data.ts:42 | the chest pullover is `db-pullover` and the back pullover `db-pullover-back` (line 77); the back list lacks `db-pullover` |
| EquipmentData.CategoriesMatchCatalog | src/entities/equipment/model/equipment-data.ts:126-152 | the tabs are chest, shoulder, back, legs, arms in order, equal to the catalog keys, each with an empty `equipment` list |
| EquipmentData.ChestExercisesIsChestEntry | src/entities/equipment/model/equipment-data.ts:124 | `chestExercises` is the chest record of the catalog |
| EquipmentData.FrequencyOptionValues | src/entities/equipment/model/equipment-data.ts:154-162 | the frequency values are "1" to "7" in order, and each parses to its position plus one |
| EquipmentData.SplitOptionValues | src/entities/equipment/model/equipment-data.ts:164-170 | the split values are "0", "2", "3", "4", "5" |
| EquipmentSelector.Remove | src/widgets/equipment-selector/ui/EquipmentSelector.tsx:116 | `filter` drops exactly the ids listed and keeps every other id |
| EquipmentSelector.RemoveAppend | src/widgets/equipment-selector/ui/EquipmentSelector.tsx:116 | filtering works part by part, so the order of what is kept is unchanged |
| EquipmentSelector.UniqueFrom | src/widgets/equipment-selector/ui/EquipmentSelector.tsx:138 | the `Set` walk keeps each id once, minus the ids already seen |
| EquipmentSelector.UniqueFromAppend | src/widgets/equipment-selector/ui/EquipmentSelector.tsx:138 | the set walks a concatenation left to right |
| EquipmentSelector.Unique | src/widgets/equipment-selector/ui/EquipmentSelector.tsx:138 | `[...new Set(list)]` holds the same ids as the list, each once |
| EquipmentSelector.Toggle | src/widgets/equipment-selector/ui/EquipmentSelector.tsx:119-125 | afterwards the id is selected iff it was not; every other id keeps its membership; an unselected id is appended, a selected one filtered out (all occurrences) with the order of the rest kept |
| EquipmentSelector.ToggleTwice | src/widgets/equipment-selector/ui/EquipmentSelector.tsx:119-125 | toggling an unselected id twice restores the selection; toggling a selected id twice filters out all its occurrences and appends it once |
| EquipmentSelector.ToggleSubCategoryAll | src/widgets/equipment-selector/ui/EquipmentSelector.tsx:128-140 | the select-all / clear-all of the sub-category's catalog ids: all selected gives the order-keeping `Remove`, otherwise all are selected; other ids keep their membership |
| EquipmentSelector.ToggleAll | src/widgets/equipment-selector/ui/EquipmentSelector.tsx:128-140 | all selected: the result is `Remove(selected, ids)` (the order-keeping filter), so exactly those ids go; otherwise `Unique(selected + ids)`, the duplicate-free union with every id selected |
| EquipmentSelector.ToggleAllEmpty | src/widgets/equipment-selector/ui/EquipmentSelector.tsx:132-139 | an empty sub-list (or unknown category) leaves the selection unchanged |
| EquipmentSelector.ToggleAllKeepsOrder | src/widgets/equipment-selector/ui/EquipmentSelector.tsx:138 | selecting all keeps a duplicate-free selection first, in its order |
| EquipmentSelector.SelectAllThenClear | src/widgets/equipment-selector/ui/EquipmentSelector.tsx:128-140 | select-all followed by clear-all leaves the old selection without the sub-list's ids |
| EquipmentSelector.SubCategoryOfKey | src/widgets/equipment-selector/ui/EquipmentSelector.tsx:51 | the key test recognises exactly the three sub-category keys |
| EquipmentSelector.Decode | src/widgets/equipment-selector/ui/EquipmentSelector.tsx:46-65 | a decoded sub-category is always one of the three keys |
| EquipmentSelector.DecodeInSubCategory | src/widgets/equipment-selector/ui/EquipmentSelector.tsx:66-76 | the sub-category read from the third piece holds no "-"; with fewer than three pieces there is no name either |
| EquipmentSelector.CustomId | src/widgets/equipment-selector/ui/EquipmentSelector.tsx:94-99 | the id starts with `custom-{category}-`, then `{sub}-` when a sub-category is open, and ends with the name |
| EquipmentSelector.WithPrefix | src/widgets/equipment-selector/ui/EquipmentSelector.tsx:45 | the prefix filter keeps exactly the ids starting with the prefix |
| EquipmentSelector.WithPrefixOne | src/widgets/equipment-selector/ui/EquipmentSelector.tsx:45 | one id is kept iff it starts with the prefix |
| EquipmentSelector.WithPrefixAppend | src/widgets/equipment-selector/ui/EquipmentSelector.tsx:45 | the filter of a concatenation is the concatenation of the filters, so selection order is kept |
| EquipmentSelector.CustomEquipmentsFor | src/widgets/equipment-selector/ui/EquipmentSelector.tsx:38-78 | one item per selected id carrying the custom prefix (with the open sub-category's key when there is one), in selection order, each the decoding of its id |
| EquipmentSelector.FiledIdParts | src/widgets/equipment-selector/ui/EquipmentSelector.tsx:94-99 | a filed custom id splits into "custom", the category, the key and the name's pieces |
| EquipmentSelector.PlainIdParts | src/widgets/equipment-selector/ui/EquipmentSelector.tsx:94-99 | an old-style custom id splits into "custom", the category and the name's pieces |
| EquipmentSelector.DecodeWithSubCategory | src/widgets/equipment-selector/ui/EquipmentSelector.tsx:42-99 | round trip: a filed id decodes to its name and sub-category, with or without an open sub-category |
| EquipmentSelector.FirstPieceKey | src/widgets/equipment-selector/ui/EquipmentSelector.tsx:49-52 | a name whose first dash piece is a key (with more after it) starts with that key and a dash |
| EquipmentSelector.DecodeWithoutSubCategory | src/widgets/equipment-selector/ui/EquipmentSelector.tsx:42-99 | round trip: an old-style id decodes to its name with no sub-category, unless the name starts with a key and a dash |
| EquipmentSelector.DecodeMisreadsFiledName | src/widgets/equipment-selector/ui/EquipmentSelector.tsx:47-64 | the exception happens: such an old-style name comes back shortened and filed under the key |
| EquipmentSelector.AddCustom | src/widgets/equipment-selector/ui/EquipmentSelector.tsx:85-104 | nothing happens iff the trimmed input is blank or already listed; otherwise the matching custom id is appended |
| EquipmentSelector.RemoveCustom | src/widgets/equipment-selector/ui/EquipmentSelector.tsx:106-117 | the result is `Remove(selected, [id])` for the rebuilt custom id: exactly that id goes, the rest keep their order |
| EquipmentSelector.CustomNamesAppend | src/widgets/equipment-selector/ui/EquipmentSelector.tsx:38-78 | an appended custom id is listed under its decoded name |
| EquipmentSelector.AddTwiceRefused | src/widgets/equipment-selector/ui/EquipmentSelector.tsx:89-91 | adding the same name a second time is refused |
| EquipmentSelector.AddThenRemove | src/widgets/equipment-selector/ui/EquipmentSelector.tsx:85-117 | removing what was just added restores the selection |
| EquipmentSelector.CountSelected | src/widgets/equipment-selector/ui/EquipmentSelector.tsx:163-169 | the number of selected catalog items is at most the list's length, and equals it iff all are selected |
| EquipmentSelector.CountSelectedAppend | src/widgets/equipment-selector/ui/EquipmentSelector.tsx:152-154 | counts add up over concatenated lists |
| EquipmentSelector.CountSelectedInLists | src/widgets/equipment-selector/ui/EquipmentSelector.tsx:151-154 | the `forEach` that accumulates `count` counts the selected items of the three lists |
| EquipmentSelector.GetCategoryCount | src/widgets/equipment-selector/ui/EquipmentSelector.tsx:147-160 | `getCategoryCount` is 0 for an unknown category, otherwise selected catalog items plus custom ids of the category |
| EquipmentSelector.CategoryCountIsSum | src/widgets/equipment-selector/ui/EquipmentSelector.tsx:147-169 | the category count is the three sub-category counts plus the custom ids with prefix `custom-{cat}-` |
| EquipmentSelector.SubCategoryCount | src/widgets/equipment-selector/ui/EquipmentSelector.tsx:163-169 | at most the sub-category's size, and equal to it iff every entry is selected |
| EquipmentSelector.CategoryCount | src/widgets/equipment-selector/ui/EquipmentSelector.tsx:147-160 | 0 for a category with no record; otherwise at least the number of its custom ids |
| EquipmentSelector.CountFullIffAllSelected | src/widgets/equipment-selector/ui/EquipmentSelector.tsx:128-169 | a sub-category count is full iff the select-all test holds |
| EquipmentSelector.NextEnabled | src/widgets/equipment-selector/ui/EquipmentSelector.tsx:466 | the next button is enabled iff the selection is non-empty |
| EquipmentSelector.SelectorState.constructor | src/widgets/equipment-selector/ui/EquipmentSelector.tsx:29-35 | starts on the first tab, no sub-category, empty and hidden input |
| EquipmentSelector.SelectorState.CategoryClick | src/widgets/equipment-selector/ui/EquipmentSelector.tsx:172-175 | sets the tab and closes the sub-category; the input is untouched |
| EquipmentSelector.SelectorState.SubCategoryClick | src/widgets/equipment-selector/ui/EquipmentSelector.tsx:178-185 | clicking the open sub-category closes it; another one opens it |
| EquipmentSelector.SelectorState.OpenCustomInput | src/widgets/equipment-selector/ui/EquipmentSelector.tsx:300 | shows the input, nothing else changes |
| EquipmentSelector.SelectorState.EditCustomInput | src/widgets/equipment-selector/ui/EquipmentSelector.tsx:316 | sets the input text, nothing else changes |
| EquipmentSelector.SelectorState.CloseCustomInput | src/widgets/equipment-selector/ui/EquipmentSelector.tsx:322-323 | hides and clears the input |
| EquipmentSelector.SelectorState.AddCustomEquipment | src/widgets/equipment-selector/ui/EquipmentSelector.tsx:85-104 | returns the new selection from the open tab, sub-category and input; on success clears and hides the input, else leaves it |
| AIRoutineGenerator.ListOf | src/entities/routine/api/ai-routine-generator.ts:450-455 | `(v as unknown[]) \|\| []` mapped: falsy gives [], an array its items, any other truthy value throws |
| AIRoutineGenerator.MapAll | src/entities/routine/api/ai-routine-generator.ts:450-455 | `map` succeeds iff every callback does, with one result per item, in order |
| AIRoutineGenerator.IntOr | src/entities/routine/api/ai-routine-generator.ts:459-460 | `parseInt(String(v)) \|\| d`: a non-zero parse is kept, NaN or 0 gives the default, and the result is never 0 when the default is not |
| AIRoutineGenerator.ParseExercise | src/entities/routine/api/ai-routine-generator.ts:455-463 | an exercise entry is read iff it is not null/undefined; its name and rest follow their fallbacks, sets and reps are `IntOr` of the fields with defaults 3 and 10, and no type is set |
| AIRoutineGenerator.ParseDay | src/entities/routine/api/ai-routine-generator.ts:450-465 | a day is read iff it and its exercises are readable; its label and focus follow their fallbacks, and exercise k is `ParseExercise` of item k |
| AIRoutineGenerator.ParseAIResponse | src/entities/routine/api/ai-routine-generator.ts:448-473 | missing days give []; otherwise it succeeds iff every day parses, keeping the number and order of days; a truthy `description` is kept as its text, a falsy one gives "" |
| AIRoutineGenerator.ExerciseDefaults | src/entities/routine/api/ai-routine-generator.ts:458-461 | an empty entry becomes ("", 3 sets, 10 reps, "60초") |
| AIRoutineGenerator.MissingCountIsNaN | src/entities/routine/api/ai-routine-generator.ts:459 | `parseInt("undefined")` is NaN |
| AIRoutineGenerator.CountKept | src/entities/routine/api/ai-routine-generator.ts:459-460 | a non-zero count, as a number or as its text, is kept |
| AIRoutineGenerator.ZeroCountReplaced | src/entities/routine/api/ai-routine-generator.ts:459-460 | a zero count is replaced by the default |
| AIRoutineGenerator.MissingCountsDefault | src/entities/routine/api/ai-routine-generator.ts:459-460 | any exercise without `sets` gets 3 sets, without `reps` 10 reps |
| AIRoutineGenerator.ExerciseNameFallbacks | src/entities/routine/api/ai-routine-generator.ts:458 | the name is `name` if non-empty, else `exercise`, else "" |
| AIRoutineGenerator.RestFallbacks | src/entities/routine/api/ai-routine-generator.ts:461 | the rest is `rest` if non-empty, else `restTime`, else "60초" |
| AIRoutineGenerator.DayLabelDefault | src/entities/routine/api/ai-routine-generator.ts:453 | for any day without `day`: the label is `"Day {String(dayNumber)}"` for a truthy day number and "Day 1" for a falsy or missing one |
| AIRoutineGenerator.FocusFromMuscleGroups | src/entities/routine/api/ai-routine-generator.ts:454 | for any day without `focus`, an array of muscle-group names becomes its comma-joined text |
| AIRoutineGenerator.StrItems | src/entities/routine/api/ai-routine-generator.ts:454 | one JSON string per text, in order |
| AIRoutineGenerator.StrItemsText | src/entities/routine/api/ai-routine-generator.ts:454 | `String` of an array of strings is the strings joined by "," |
| AIRoutineGenerator.DayReadByExercises | src/entities/routine/api/ai-routine-generator.ts:450-465 | whether an object is read as a day depends on its `exercises` field only |
| AIRoutineGenerator.DayNumberLabel | src/entities/routine/api/ai-routine-generator.ts:453 | a readable day without `day` and with day number n is read, and labelled "Day n" (or "Day 1" for 0) |
| AIRoutineGenerator.DayFieldsGiven | src/entities/routine/api/ai-routine-generator.ts:453-454 | a non-empty `day` and `focus` are taken as given |
| AIRoutineGenerator.RoutineDefaults | src/entities/routine/api/ai-routine-generator.ts:467-472 | an empty reply gives `"{split}분할 루틴"`, "", no days and no tips |
| AIRoutineGenerator.RoutineFieldDefaults | src/entities/routine/api/ai-routine-generator.ts:467-472 | for any reply that is read, a missing `routineName` gives `"{split}분할 루틴"`, a missing description "", missing tips [] |
| AIRoutineGenerator.RoutineFieldsGiven | src/entities/routine/api/ai-routine-generator.ts:467-472 | a non-empty routine name and an array of tips are taken as given, and the reply is still read |
| AIRoutineGenerator.DescriptionGiven | src/entities/routine/api/ai-routine-generator.ts:469 | a `description` string in the reply becomes the routine's description ("" stays ""), and the reply is still read |
| AIRoutineGenerator.CatalogName | src/entities/routine/api/ai-routine-generator.ts:372-376 | categories with empty `equipment` lists name nothing |
| AIRoutineGenerator.FindEquipment | src/entities/routine/api/ai-routine-generator.ts:373 | `find` returns the first entry with the id, or none has it |
| AIRoutineGenerator.PromptNames | src/entities/routine/api/ai-routine-generator.ts:363-378 | at most one name per id, none empty (`filter(Boolean)`) |
| AIRoutineGenerator.PromptNamesOne | src/entities/routine/api/ai-routine-generator.ts:363-378 | one id contributes its name iff it has a non-empty one |
| AIRoutineGenerator.PromptNamesAppend | src/entities/routine/api/ai-routine-generator.ts:363-378 | the names of concatenated selections are the concatenated names, in order |
| AIRoutineGenerator.CatalogHasNoNames | src/entities/routine/api/ai-routine-generator.ts:372-376 | with the real category list, no id that is not custom gets a name |
| AIRoutineGenerator.OnlyCustomNamed | src/entities/routine/api/ai-routine-generator.ts:363-378 | the prompt's names are exactly those of the custom ids |
| AIRoutineGenerator.CustomIdMarked | src/entities/routine/api/ai-routine-generator.ts:366 | every id the selector builds for custom equipment is recognised as custom |
| AIRoutineGenerator.FiledNameKeepsSubCategory | src/entities/routine/api/ai-routine-generator.ts:366-369 | a filed custom id is named `"{sub}-{name}"`: the sub-category stays in the name |
| AIRoutineGenerator.PlainNameKept | src/entities/routine/api/ai-routine-generator.ts:366-369 | an old-style custom id is named by its name |
| AIRoutineGenerator.ProviderNamed | src/entities/routine/api/ai-routine-generator.ts:494-506 | a provider the `switch` accepts is the one of that name |
| AIRoutineGenerator.FirstSet | src/entities/routine/api/ai-routine-generator.ts:483-487 | `a \|\| b \|\| fallback` prefers a set value and is never empty with a non-empty fallback |
| AIRoutineGenerator.ChooseProvider | src/entities/routine/api/ai-routine-generator.ts:483-507 | no key fails first; otherwise it succeeds iff the chosen name is a known provider, and that one is called |
| AIRoutineGenerator.DefaultsToGroq | src/entities/routine/api/ai-routine-generator.ts:483-485 | with a key and no provider set, Groq is called |
| AIRoutineGenerator.UnknownProviderFails | src/entities/routine/api/ai-routine-generator.ts:505-506 | an unknown provider fails with `"지원하지 않는 AI 제공자: {provider}"` |
| RoutineResults.SkipSpaces | src/widgets/routine-results/ui/RoutineResults.tsx:81 | `\s*` stops at the first non-space |
| RoutineResults.TypeGroup | src/widgets/routine-results/ui/RoutineResults.tsx:81 | the captured type is non-empty and holds no ")" |
| RoutineResults.FirstMatchFrom | src/widgets/routine-results/ui/RoutineResults.tsx:81 | the lazy `(.+?)` takes the earliest position at which the rest matches |
| RoutineResults.ExtractType | src/widgets/routine-results/ui/RoutineResults.tsx:80-86 | a type is found iff the name matches; then the trimmed prefix and the trimmed type of the earliest match, else the name unchanged |
| RoutineResults.LabelledMatches | src/widgets/routine-results/ui/RoutineResults.tsx:81 | `"{base} ({t})"` matches at the end of `base` and captures t |
| RoutineResults.LabelledMatchIsFirst | src/widgets/routine-results/ui/RoutineResults.tsx:81 | no earlier split of such a name matches |
| RoutineResults.ExtractTypeOfLabelled | src/widgets/routine-results/ui/RoutineResults.tsx:80-86 | round trip: `"{base} ({t})"` splits back into base and t |
| RoutineResults.TypeLabel | src/widgets/routine-results/ui/RoutineResults.tsx:91-110 | a known label maps to a Korean label; an unknown one passes through |
| RoutineResults.TypeLabelOfKind | src/widgets/routine-results/ui/RoutineResults.tsx:91-98 | the English key and the Korean label of a kind both show that Korean label |
| RoutineResults.TypeLabelIdempotent | src/widgets/routine-results/ui/RoutineResults.tsx:91-110 | mapping a label twice is mapping it once |
| RoutineResults.BadgeOf | src/widgets/routine-results/ui/RoutineResults.tsx:88-110 | the parsed type wins over `exercise.type`; no badge iff both are empty |
| RoutineResults.BadgeOfLabelledName | src/widgets/routine-results/ui/RoutineResults.tsx:80-110 | a name ending in `" ({key})"` shows that kind's label |
| RoutineResults.ExerciseLines | src/widgets/routine-results/ui/RoutineResults.tsx:141-142 | one `"{name} {sets}x{reps} ({rest})"` line per exercise, in order |
| RoutineResults.DayCopyText | src/widgets/routine-results/ui/RoutineResults.tsx:137-143 | the day card copies `"{day} - {focus}\n"` first, and only that for a day without exercises |
| RoutineResults.DayBlocks | src/widgets/routine-results/ui/RoutineResults.tsx:245-251 | one two-space-indented block per day, in order |
| RoutineResults.CopyAllText | src/widgets/routine-results/ui/RoutineResults.tsx:244-253 | no days copy "", a single day copies its indented block alone |
| RoutineResults.DayTextLines | src/widgets/routine-results/ui/RoutineResults.tsx:139-143 | the day text splits into the header `"{day} - {focus}"` and one line per exercise |
| RoutineResults.CopyAllBlockIndents | src/widgets/routine-results/ui/RoutineResults.tsx:248-250 | copy-all lines are the day-card lines with the exercise lines indented by two spaces |
| RoutineResults.CopyAllLines | src/widgets/routine-results/ui/RoutineResults.tsx:245-252 | the copy-all text splits into each day's lines, with a blank line between days |
| RoutineResults.BlocksLines | src/widgets/routine-results/ui/RoutineResults.tsx:245-252 | joining blocks with "\n\n" and splitting on "\n" gives the days' lines with blank separators |
| RoutineResults.ShareTextLines | src/widgets/routine-results/ui/RoutineResults.tsx:277-286 | the share text is name, blank, description, blank, then the copy-all lines |
| RoutineResults.ShareText | src/widgets/routine-results/ui/RoutineResults.tsx:276-287 | the share text opens with the routine name and a blank line and ends with the copy-all text |
| RoutineResults.TotalSetsAppend | src/widgets/routine-results/ui/RoutineResults.tsx:203 | the set total adds up over concatenated lists |
| RoutineResults.TotalSets | src/widgets/routine-results/ui/RoutineResults.tsx:203 | the set total is non-negative when every count is |
| RoutineResults.TotalSetsBounds | src/widgets/routine-results/ui/RoutineResults.tsx:200-203 | n exercises with sets in [lo, hi] total between n·lo and n·hi |
| RoutineResults.DayColor | src/widgets/routine-results/ui/RoutineResults.tsx:149-164 | the card colour is one of the five colours |
| RoutineResults.DayColorCycle | src/widgets/routine-results/ui/RoutineResults.tsx:163 | colours repeat every five days and neighbouring days differ |
| AITrainer.MessageLines | src/entities/trainer/api/ai-trainer.ts:17-18 | one `"{speaker}: {content}"` line per message, in order |
| AITrainer.HistoryText | src/entities/trainer/api/ai-trainer.ts:14-19 | the history block is empty iff there is no history |
| AITrainer.ChatPrompt | src/entities/trainer/api/ai-trainer.ts:21-31 | the prompt opens with the preamble and ends with the question section and the closing line |
| AITrainer.BuildChatPrompt | src/entities/trainer/api/ai-trainer.ts:13-33 | the prompt opens with the fixed instructions and ends with the question section and the closing line |
| AITrainer.PromptWithoutHistory | src/entities/trainer/api/ai-trainer.ts:21-31 | without history the prompt is the instructions, the question section and the closing line |
| AITrainer.PromptWithHistory | src/entities/trainer/api/ai-trainer.ts:17-31 | with history, `"지금까지의 대화:\n"`, the lines joined by "\n" and "\n\n" come between instructions and question |
| AITrainer.LineShowsSpeaker | src/entities/trainer/api/ai-trainer.ts:18 | a line starts with its speaker, and "사용자" is shown exactly for the user |
| AITrainer.HistoryLinesRecovered | src/entities/trainer/api/ai-trainer.ts:17-19 | without line breaks in the messages, the block splits back into one line per message |
| AITrainer.PrepareRequest | src/entities/trainer/api/ai-trainer.ts:44-58 | no key fails first; it proceeds iff the provider (default gemini) is gemini, with the built prompt |
| AITrainer.GeminiByDefault | src/entities/trainer/api/ai-trainer.ts:44-57 | with a key and no provider the chat proceeds; another provider is refused |
| HomePage.StepNumber | src/pages/home/ui/HomePage.tsx:64-75 | the number is at most 3, and 0 exactly on the landing step |
| HomePage.StepNumberInjective | src/pages/home/ui/HomePage.tsx:64-75 | different steps show different numbers |
| HomePage.IndicatorFollowsStep | src/pages/home/ui/HomePage.tsx:107-111 | past the landing step, the indicator has three segments: the earlier ones completed, the current one current |
| HomePage.Home.constructor | src/pages/home/ui/HomePage.tsx:20-29 | landing, empty selection, config {"3", "3", "hypertrophy"}, no routine, not loading, no error |
| HomePage.Home.Start | src/pages/home/ui/HomePage.tsx:80 | landing's start goes to the equipment step, nothing else changes |
| HomePage.Home.ChangeSelection | src/pages/home/ui/HomePage.tsx:124 | the selector's change replaces the selection only |
| HomePage.Home.Next | src/pages/home/ui/HomePage.tsx:125 | equipment's next goes to settings |
| HomePage.Home.Back | src/pages/home/ui/HomePage.tsx:134 | settings' back goes to equipment |
| HomePage.Home.ChangeConfig | src/pages/home/ui/HomePage.tsx:132 | the settings' change replaces the config only |
| HomePage.Home.BeginGenerate | src/pages/home/ui/HomePage.tsx:31-44 | results step, loading, routine and error cleared; the request carries the selection and the config |
| HomePage.Home.FinishGenerate | src/pages/home/ui/HomePage.tsx:46-54 | success stores the routine, failure the message or the default text; loading ends either way |
| HomePage.Home.Reset | src/pages/home/ui/HomePage.tsx:57-62 | back to landing with empty selection, default config and no routine; error and loading untouched |
| HomePage.Home.CurrentStepNumber | src/pages/home/ui/HomePage.tsx:64-75 | the number shown is that of the current step |
| HomePage.GenerateSucceeds | src/pages/home/ui/HomePage.tsx:31-55 | a successful generation ends on results with the routine, no error, not loading |
| HomePage.GenerateFails | src/pages/home/ui/HomePage.tsx:31-55 | a failed one ends on results without routine, with the message, not loading |
| HomePage.WalkToSettings | src/pages/home/ui/HomePage.tsx:20-125 | start, select, next reaches settings with that selection and the default config |
| StepIndicator.SegmentCount | src/widgets/step-indicator/ui/StepIndicator.tsx:15 | `Array.from({ length })` makes `totalSteps` segments, none for a negative length |
| StepIndicator.Segments | src/widgets/step-indicator/ui/StepIndicator.tsx:15-45 | one segment per index, each classified by its step |
| StepIndicator.SegmentClassification | src/widgets/step-indicator/ui/StepIndicator.tsx:15-40 | step i+1 with label `labels[i]`; completed iff step < current, current iff equal, filled iff ≤; never both; check only when completed; tone follows |
| StepIndicator.AtMostOneCurrent | src/widgets/step-indicator/ui/StepIndicator.tsx:18 | at most one segment is current |
| StepIndicator.SegmentsFrom | src/widgets/step-indicator/ui/StepIndicator.tsx:15-45 | the segments from an index on, as drawn |
| StepIndicator.CountsFrom | src/widgets/step-indicator/ui/StepIndicator.tsx:17-27 | the completed and filled counts of a run of segments |
| StepIndicator.CompletedAndFilledCounts | src/widgets/step-indicator/ui/StepIndicator.tsx:17-27 | exactly the steps before the current one are completed and those up to it are filled, clamped to the segment count |
| WorkoutSettings.FindIndex | src/widgets/workout-settings/ui/WorkoutSettings.tsx:46 | `findIndex`: the first matching index, or -1 iff there is none |
| WorkoutSettings.SliderValue | src/widgets/workout-settings/ui/WorkoutSettings.tsx:46-47 | the slider lies in [0, length-1]; it is 0 when no option has the value; otherwise it is the first index holding the value |
| WorkoutSettings.SliderChange | src/widgets/workout-settings/ui/WorkoutSettings.tsx:49-51 | the slider text selects `options[i].value` iff it parses to an index in range; otherwise the source throws |
| WorkoutSettings.SliderAt | src/widgets/workout-settings/ui/WorkoutSettings.tsx:49-51 | the text of position i selects option i |
| WorkoutSettings.SliderRoundTrip | src/widgets/workout-settings/ui/WorkoutSettings.tsx:46-51 | re-emitting the current position gives the current value, or the first value when it is not an option |
| WorkoutSettings.SliderFindsPosition | src/widgets/workout-settings/ui/WorkoutSettings.tsx:46-47 | with distinct values, the value at position i puts the slider at i |
| WorkoutSettings.ShownCaption | src/widgets/workout-settings/ui/WorkoutSettings.tsx:62 | the matching option's label, else the first label; nothing (a throw) for no options |
| WorkoutSettings.FrequencySlider | src/widgets/workout-settings/ui/WorkoutSettings.tsx:46-62 | a frequency of n (1..7) puts the slider at n-1 and shows "주 n회" |
| WorkoutSettings.FrequencyValuesDistinct | src/entities/equipment/model/equipment-data.ts:154-162 | the frequency values are pairwise distinct |
| WorkoutSettings.ChangeSetsOneField | src/widgets/workout-settings/ui/WorkoutSettings.tsx:181-206 | a change sets its own field and leaves the other three as they were |
| WorkoutSettings.Changed | src/widgets/workout-settings/ui/WorkoutSettings.tsx:181-206 | a change sets its own field to the value and keeps every other field |
| WorkoutSettings.ChangeLaws | src/widgets/workout-settings/ui/WorkoutSettings.tsx:181-206 | re-choosing the current value changes nothing; a later change of a field overrides an earlier one |
| JsStrings.Trim | src/widgets/equipment-selector/ui/EquipmentSelector.tsx:86 | `trim()` leaves no white space at either end, keeps a trimmed string, and is empty iff the input is all white space |
| JsStrings.TrimStart | src/entities/routine/model/routine-generator.ts:240 | the leading white space `parseInt` skips: a suffix of the input, all white space before it, no white space at its head |
| JsStrings.ParseInt | src/entities/routine/model/routine-generator.ts:240 | blank text is NaN; a negative result comes from text whose first non-space character is "-" |
| JsStrings.TrimEnd | src/widgets/equipment-selector/ui/EquipmentSelector.tsx:86 | the trailing half of `trim()`: a prefix of the input, all white space after it, no white space at its end |
| JsStrings.Split | src/widgets/equipment-selector/ui/EquipmentSelector.tsx:47 | `split` gives at least one piece, none containing the separator |
| JsStrings.JoinSplit | src/widgets/equipment-selector/ui/EquipmentSelector.tsx:47-55 | joining the pieces with the separator restores the string |
| JsStrings.SplitAfter | src/widgets/equipment-selector/ui/EquipmentSelector.tsx:47 | splitting `a + sep + b` with no separator in `a` gives `a` and then the pieces of `b` |
| JsStrings.SplitJoin | src/entities/trainer/api/ai-trainer.ts:19 | splitting pieces without the separator, once joined, gives the pieces back |
| JsStrings.IntToString | src/entities/routine/model/routine-generator.ts:199 | a number's text is decimal digits with a leading '-' iff negative |
| JsStrings.ParseIntToString | src/entities/routine/model/routine-generator.ts:240 | `parseInt` of a number's text gives the number back |
| JsStrings.ParseNegative | src/entities/routine/model/routine-generator.ts:240 | `parseInt` reads a negative number's text back to the number |
| JsStrings.ParseNonNegative | src/widgets/workout-settings/ui/WorkoutSettings.tsx:50 | `parseInt` reads a non-negative number's text back to the number |

## Left out

- RoutineGenerator.LcgStep: the step is exact integer arithmetic modulo 2^31. The source multiplies in double precision, so once the state exceeds about 2^23 the product is rounded before `& 0x7fffffff`. The exact permutation a seed produces can therefore differ from the source's. What is proved (a permutation, the swap partner j ≤ i, the ranges of the draws) holds for any state sequence.
- RoutineGenerator.RandBetween: requires min ≤ max. Every call site passes a range from the goal table, which satisfies this. An inverted range, where JavaScript takes a remainder by zero or a negative number, is not modelled.
- Numbers are integers throughout. `parseInt` results, `String(n)` and JSON numbers are never fractional, infinite or -0. JSON values are modelled as a datatype after `JSON.parse`. The text parsing and the regex clean-up of the reply before `JSON.parse` are not part of this model.
- JsStrings.IntToString: a number's text is always plain decimal digits. JavaScript's `String(n)` switches to exponent notation for |n| ≥ 10^21 ("1e+21"), which is not modelled. Every number the core writes (counts, day numbers, sets, reps, rest seconds) is far below that bound.
- JsStrings.ParseIntToString: the round trip is proved for every integer. In JavaScript it holds only for safe integers (|n| < 2^53): above that a number is stored inexactly, and from 10^21 on `String(n)` is in exponent notation, which `parseInt` reads back as its leading digit.
- JsStrings.ParseInt: the digits are read into an exact integer. JavaScript rounds a result beyond 2^53 to the nearest double; such long digit runs are not modelled.
- AIRoutineGenerator.CountKept: JSON numbers in the reply are modelled as exact integers. A fractional count, or one beyond 2^53 that `JSON.parse` rounds, is not modelled.
- AIRoutineGenerator.ParseAIResponse: `routineName`, `description` and the tips pass through the source untyped (`as string`, `as string[]`). The model converts them to text with `String(...)`, and a truthy non-array `tips` gives no tips.
- Record lookups (`goalParams[goal]`, `splitTemplates[split]`, `exercisesByCategory[id]`, the type labels) are modelled as lookups in the listed keys only. Keys inherited from `Object.prototype`, such as "constructor", are not modelled.
- The network requests to Groq, OpenAI, Claude, Gemini and Together are not modelled: the HTTP bodies, the responses and the error texts of each provider. Neither is the prose of the routine prompt. Only the checks made before a request, the equipment names sent, and the reading of the reply are modelled.
- Environment variables (`import.meta.env`) become fields of the settings parameter.
- The rendering is not modelled: JSX, icons, animations and the slider's gradient. Nor are the clipboard, the timers behind the "copied" flags, Kakao sharing, Firebase participant counts, the hero section and the chat widget. The texts they are given are modelled where the core builds them.
- HomePage.Home.BeginGenerate and HomePage.Home.FinishGenerate: `handleGenerate` is one async callback. It is split at its `await`, and the generator's outcome is a parameter of the second half. Interleaving with other handlers while the request is in flight, or a reset during loading, is not modelled beyond what `Reset` states (it leaves `isLoading` and `error` as they are, as the source does).
- The page's configuration `{frequency, split, goal}` and the settings screen's `WorkoutConfig` (`frequency`, `split`, `focus`, `experienceLevel`) are two different records in the source. Each is modelled as declared. The model does not reconcile them. The settings screen's `experienceLevelOptions` list is not defined in the equipment data, so its option values are not modelled. A change of that field is, as the setting `ExperienceLevel`.
- React state updates are modelled as taking effect immediately and in order. Batching and stale closures are not modelled.
