# Quantix nutrition ledger, modelled in Dafny

This project models the local nutrition ledger of the Quantix nutrition app. The ledger is the set of records the app keeps in browser storage:
- the user profile, with XP, level, credits, streak, badges, histories and API usage;
- the meal and exercise entries;
- the per-day stats (water and fasting);
- the saved combos, the weekly plan and the shopping list.

The model covers every operation that reads or writes the ledger, and the figures the screens and the coach compute from it (the exceptions are listed under "Left out"):
- the storage wrapper, with lazy defaults and swallowed errors;
- the gamification engine: XP, levels, credits, streaks and badges;
- the profile calculators: macro grams, BMI bands, dated history upserts and API-usage counters;
- the ledger mutators and the review/combo pipeline of the app controller;
- the manual fasting editor;
- the period aggregations of the analytics screen and the coach context;
- the shopping checklist;
- translation lookup;
- the pure slice of the AI-reply boundary: credit and input gates, code-fence stripping, JSON-object extraction and remaining-macro arithmetic;
- the earlier single-file revision of the engine (`app.js`), which has its own level table, streak record and single-item review.

The time is always a parameter:
- Calendar days are integers (`yesterday == today - 1`).
- Timestamps are integer milliseconds.
- `DayOf(ts)` maps a timestamp to its day.

Other inputs the source reads from the environment are parameters too:
- the current time and fresh ids;
- the meal category selected in the input screen;
- the answers to confirmation prompts;
- the text of the model's reply.

`Database.Ledger` holds one field per storage key. Each field holds the decoded record, or `None` when the key is absent or unreadable. Every mutator re-reads a field, changes the value and assigns it back, as the source does with `DB.set`. The raw key/value layer under that (prefix, string encoding, failed writes, backup import) is `Store.KeyValueStore`.

Modules, one per source file:
- `Database`: js/data/database.js
- `Store`: js/data/database.js `get`/`set`, and the `importData` filter of app.js
- `Gamification`: js/logic/gamification.js
- `ProfileLogic`: js/logic/profile.js
- `AppLogic`: js/app.js
- `Fasting`: js/ui/fasting.js
- `AnalyticsScreen`: js/ui/analytics.js
- `ContextService`: js/services/context.js
- `Shopping`: js/ui/shopping.js
- `I18n`: js/services/i18n.js
- `Api`: js/services/api.js
- `Legacy`: app.js

`Lists` and `Wrappers` hold shared helpers.

The model follows the code as written, including where it departs from what the app evidently intends:
- The current `addXP` resets XP to 0 on a level-up. It does not carry the remainder.
- Confirming N review items awards 20 XP per item, through `addMealToDB`. It is not one award per batch.
- Water has no floor at 0.
- The hourly chart sums calories over all stored meals and divides by nothing. It is not an average per active day.
- The coach score divides the food-typed scores by the count of all non-exercise entries.
- `initReview(result.items)` takes a reply without an `items` list as an empty review. A single item is not wrapped into a list.
- `checkBadges`, in both revisions, ends by writing the profile it read on entry. That write overwrites the XP its nested `addXP(50)` calls stored.
- `analyzeAI` does the same with the `updateApiUsage` it calls: on success the increment is lost.

## Model

| member | source | states |
|---|---|---|
| Database.HourOf | js/ui/analytics.js:93 | the hour a timestamp falls in lies in 0..23 |
| Database.NumOr | js/logic/profile.js:77 | `x \|\| fallback`: the value when truthy (present and non-zero), the fallback otherwise |
| Database.Round | js/logic/profile.js:29 | `Math.round` lands within half a unit of its argument |
| Database.Normalize | js/data/database.js:46-48 | only a missing microTargets, measurementsHistory or weightHistory is filled; every other field is kept, and an already-filled profile is unchanged |
| Database.ProfileOf | js/data/database.js:38-50 | with nothing stored the default profile is returned; otherwise the stored profile is normalized |
| Database.StatsWithToday | js/data/database.js:55-68 | today always has an entry; a zeroed one is added only when today is absent, and every other day is kept as stored |
| Database.EmptyStoreDefaults | js/data/database.js:39-45 | an empty store reads as level 1, 0 XP, 50 credits, target 2000, strategy balanced, empty histories and today's water 0 |
| Store.Read | js/data/database.js:22-27 | a read returns the supplied default when the prefixed key is absent, holds the empty string, or holds text the decoder rejects; otherwise it returns the decoded value |
| Store.Written | js/data/database.js:28-32 | a successful write stores the text under prefix+key and touches no other key; a refused write leaves the store unchanged |
| Store.PrefixInjective | js/data/database.js:24 | distinct keys map to distinct prefixed keys |
| Store.ReadAfterWrite | js/data/database.js:22-32 | reading a value back after writing it gives the value, for any encoder the decoder inverts and that never yields the empty string |
| Store.WriteFrame | js/data/database.js:28-32 | a write under one key leaves what every other key reads |
| Store.FailedWriteKeepsValue | js/data/database.js:31 | after a refused write the key reads as before |
| Store.KeyValueStore.Get | js/data/database.js:22-27 | the method returns exactly what `Read` specifies |
| Store.KeyValueStore.Set | js/data/database.js:28-32 | the new store is `Written` of the old one |
| Store.KeyValueStore.Import | app.js:1264-1276 | a backup that failed to parse changes nothing; otherwise the loop copies, in order, exactly the pairs whose key carries the prefix |
| Store.ImportedSpec | app.js:1271 | after an import, a key without the prefix, or one the backup does not mention, keeps its old value; a prefixed key the backup mentions holds the backup's last value for it |
| Store.ImportThenRead | app.js:1271 | a ledger key mentioned by the backup reads as the decoded value of the backup's last entry for it |
| Gamification.TransactionXP | js/logic/gamification.js:13-41 | base XP is 50 for meal_entry, 100 for combo_entry or daily_streak and 0 otherwise; exactly 30 more when itemCount ≥ 3 |
| Gamification.Leveled | js/logic/gamification.js:43-90 | below level·500 only the XP grows; reaching it gives exactly one level, +5 credits and XP 0, whatever the amount; credits − 5·level is invariant; no other field changes |
| Gamification.LeveledTimesBounds | js/logic/gamification.js:43-90 | n calls gain between 0 and n levels, each paid with exactly 5 credits, and change nothing else |
| Gamification.LeveledTimesBelowThreshold | js/logic/gamification.js:60-62 | calls that stay below the threshold only add to the XP |
| Gamification.StreakUpdate | js/logic/gamification.js:97-127 | a no-op iff the last activity is today; a last activity yesterday gives streak+1 and XP+100 without a level check; any other case gives streak 1; the timestamp becomes now |
| Gamification.ConsecutiveDays | js/logic/gamification.js:97-127 | activity on k consecutive days adds k to the streak and 100·k XP, and leaves level and credits alone |
| Gamification.Rules | js/logic/gamification.js:142-148 | the five rules, in order: first_step (≥1 meal), water_master (today's water ≥2500), streak_3, streak_7, expert (≥50 meals) |
| Gamification.Unlock | js/logic/gamification.js:150-156 | the unlocked list only grows at the end |
| Gamification.UnlockSpec | js/logic/gamification.js:150-156 | every passing rule's id is held afterwards, each new id comes from a passing rule, no id is added twice, and nothing changes iff every passing id was already held |
| Gamification.UnlockStep | js/logic/gamification.js:151-152 | one more rule pushes its id exactly when it passes and is not yet held |
| Gamification.BadgesStored | js/logic/gamification.js:129-166 | a changed profile has achievements and badges set to the same list, and is the entry snapshot with those two fields replaced (the nested addXP updates are lost) |
| Gamification.BadgesStoredUnlocks | js/logic/gamification.js:142-161 | after checkBadges every passing rule has its badge and a duplicate-free list stays duplicate-free |
| Gamification.AddXP | js/logic/gamification.js:43-90 | the stored profile becomes `Leveled` of the profile read |
| Gamification.CheckStreak | js/logic/gamification.js:97-127 | the stored profile becomes `StreakUpdate` of the profile read, or stays as it was on the same day |
| Gamification.CheckBadges | js/logic/gamification.js:129-166 | the loop calls addXP(50) once per new badge, then writes the snapshot; the result equals `BadgesStored` |
| Gamification.EffectsStored | js/app.js:262-263 | after checkBadges then checkStreak, the last activity is today, and level and credits are unchanged |
| Gamification.RefreshEffects | js/app.js:262-263 | the stored profile becomes `EffectsStored` |
| ProfileLogic.StrategyRatios | js/logic/profile.js:16-24 | the ratio tables for lowcarb, ketogenic and custom (percentages / 100); any other strategy is balanced; the fixed tables sum to 1 |
| ProfileLogic.CalculateMacros | js/logic/profile.js:9-36 | each macro is the nearest whole gram (within half a gram) of target·ratio/4 for p and c and target·ratio/9 for f, so the grams give back the target's energy within 8.5 kcal; fibre is the target or 25 when it is 0 |
| ProfileLogic.DefaultMacros | js/logic/profile.js:28-32 | the default profile gives 150 g / 200 g / 67 g and 25 g of fibre |
| ProfileLogic.OverSquare | js/logic/profile.js:43 | dividing a positive weight by a positive square is positive and undone by multiplying back |
| ProfileLogic.Bmi | js/logic/profile.js:38-43 | a BMI exists iff both fields parse to positive numbers; it is positive and equals weight over height in metres squared |
| ProfileLogic.Band | js/logic/profile.js:52-64 | the four bands partition the reals at 18.5, 24.9 and 29.9 |
| ProfileLogic.InsertByDate | js/logic/profile.js:99 | inserting keeps every entry and adds exactly one |
| ProfileLogic.SortedSnoc | js/logic/profile.js:99 | appending an entry dated after every other entry keeps the history sorted |
| ProfileLogic.InsertByDateSorted | js/logic/profile.js:99 | inserting into a sorted history keeps it sorted |
| ProfileLogic.SortByDate | js/logic/profile.js:99 | the result is sorted by date and is a permutation of the input |
| ProfileLogic.WeightUpsert | js/logic/profile.js:94-100 | the new history is sorted and holds exactly the entries of other days plus the new one |
| ProfileLogic.WeightUpsertDates | js/logic/profile.js:94-100 | today has exactly one entry, the new weight; the entries of every other date are unchanged |
| ProfileLogic.MeasurementUpsert | js/logic/profile.js:103-110 | today's entry is appended last and is the only one of its date; the earlier entries keep their order |
| ProfileLogic.FormApplied | js/logic/profile.js:76-91 | name, gender and strategy come from the form; truthy weight, height, age, target and fibre are taken from the form, else weight, height and age keep their old values while target and fibre fall back to 2000 and 25; under the custom strategy each percentage is the form's when truthy, else 30/40/30, and under any other the custom macros are kept |
| ProfileLogic.SavedProfile | js/logic/profile.js:72-114 | without weight tracking only the form is applied; with it, the weight history is the `WeightUpsert` of today's weight (sorted, holding it) and the measurement history the `MeasurementUpsert` of today's entry (ending with it) |
| ProfileLogic.SavedWeightDates | js/logic/profile.js:94-100 | after a tracked save today has exactly one weight entry, the saved weight, and every other date keeps exactly the entries it had |
| ProfileLogic.Save | js/logic/profile.js:72-118 | the stored profile becomes the saved profile, followed by the refresh effects |
| ProfileLogic.TokenCount | js/logic/profile.js:170 | totalTokenCount when truthy, else total_token_count when truthy; 0 iff both are missing or zero |
| ProfileLogic.UsageAfter | js/logic/profile.js:164-173 | every call adds one request; tokens grow by the token count only when metadata is present |
| ProfileLogic.UsageCountsCalls | js/logic/profile.js:164-173 | over a run of calls the request counter grows by the number of calls and the token counter by their token counts |
| ProfileLogic.UpdateApiUsage | js/logic/profile.js:164-176 | the stored profile changes only in its usage counters, which become `UsageAfter` |
| AppLogic.TotalsAppend | js/app.js:150-162 | totals over two runs of entries add up |
| AppLogic.RemainingAfterEntry | js/app.js:153-167 | a food entry lowers the calories left by its calories; an exercise entry raises them by the calories burned |
| AppLogic.DailyTotals | js/app.js:147-162 | the loop over today's entries computes the totals of exactly the entries filed under today |
| AppLogic.EditedItem | js/app.js:369-376 | cals and weight store the parsed value or 0, desc stores the raw text, and nothing else changes |
| AppLogic.SpliceStart | js/app.js:381 | `splice` position: a non-negative index is clamped to the length; a negative one counts from the end, clamped at 0 |
| AppLogic.Spliced | js/app.js:380-384 | removes exactly the item at the splice position, or nothing past the end |
| AppLogic.SumCalsAppend | js/app.js:398-402 | the review total is additive over concatenation |
| AppLogic.SumCalsSplit | js/app.js:398-402 | the total of a list with one item singled out is the sum of its parts |
| AppLogic.SumCalsRemove | js/app.js:380-402 | removing an item lowers the total by exactly its calories |
| AppLogic.SumCalsEdit | js/app.js:369-402 | editing an item's calories moves the total by the difference |
| AppLogic.ItemEntry | js/app.js:444-456 | the entry of a review item is food of the current category at the shared timestamp with the item's text; truthy calories, weight and score are carried over, else 0, 0 and 5; present macros and micros are carried over, else zeroed |
| AppLogic.Stamped | js/app.js:678-680 | the generated id and today's key are used only when the data has none (the spread comes last) |
| AppLogic.ItemMeals | js/app.js:444-458 | one meal per item, in order, with its fresh id, today's key and the shared timestamp |
| AppLogic.ItemMealsSnoc | js/app.js:444-458 | one more item appends exactly its meal |
| AppLogic.ItemAdded | js/app.js:456 | after the i-th addMealToDB the ledger holds the meals of the first i+1 items |
| AppLogic.MealAwarded | js/app.js:678-684 | after one addMealToDB the profile gained at most one level, each paid with 5 credits, and its last activity is today |
| AppLogic.WaterAdded | js/app.js:615-620 | today's water grows by ml with no floor at 0; every other day is kept |
| AppLogic.WaterUndo | js/app.js:615-620 | adding an amount and then its opposite restores the day stats |
| AppLogic.FastingToggled | js/app.js:622-631 | an inactive fast starts now; an active one ends only when confirmed, without recording minutes; other days are kept |
| AppLogic.FastingToggleUndo | js/app.js:622-631 | starting and then confirming the end restores the day when no fast was active |
| AppLogic.TrimStart | js/app.js:421 | removes exactly the leading white space |
| AppLogic.TrimEnd | js/app.js:421 | removes exactly the trailing white space |
| AppLogic.Trim | js/app.js:421 | a name trims to empty iff it is all white space |
| AppLogic.TrimBlank | js/app.js:421-422 | the two-sided trim is empty iff the name is blank |
| AppLogic.FindCombo | js/app.js:528-530 | returns None iff no combo has the id; otherwise it returns the first combo with that id |
| AppLogic.App.RefreshUI | js/app.js:142-178 | the dashboard shows target − (intake − burned) over today's entries, flagged when negative, then runs the refresh effects |
| AppLogic.App.AddMealToDB | js/app.js:678-684 | appends exactly one stamped meal at the end and stores `MealAwarded` |
| AppLogic.App.DeleteMeal | js/app.js:633-637 | removes every meal with the id and keeps the others in order |
| AppLogic.App.AddItems | js/app.js:444-458 | appends one meal per item in order; at most one level per item, and the last activity is today |
| AppLogic.App.AddItem | js/app.js:445-456 | one loop step appends the i-th item's meal |
| AppLogic.App.InitReview | js/app.js:311-312 | the review list becomes the items, or empty when there are none |
| AppLogic.App.UpdateReviewItem | js/app.js:369-378 | does nothing for an index without an item; otherwise it replaces that item by `EditedItem` and no other |
| AppLogic.App.RemoveReviewItem | js/app.js:380-384 | the list becomes `Spliced` at the index |
| AppLogic.App.AddManualReviewItem | js/app.js:386-396 | appends the fixed 100 g / 100 kcal template |
| AppLogic.App.RecalculateTotals | js/app.js:398-402 | the rounded sum of every item's calories, 0 for unparseable ones |
| AppLogic.App.ConfirmReview | js/app.js:415-473 | with no items, or a blank combo name, nothing is saved; otherwise at most one combo holding the items is saved, one meal per item is appended and the list empties |
| AppLogic.App.CancelReview | js/app.js:475-479 | the list empties and nothing is stored |
| AppLogic.App.AddCombo | js/app.js:527-551 | an unknown id adds nothing; otherwise the combo's items are replayed as one meal each |
| AppLogic.App.DeleteCombo | js/app.js:553-558 | does nothing unless confirmed; otherwise it removes every combo with the id and keeps the rest in order |
| AppLogic.App.AddWater | js/app.js:615-620 | the stats become `WaterAdded`, then the refresh effects run |
| AppLogic.App.ToggleFasting | js/app.js:622-631 | the stats become `FastingToggled`, then the refresh effects run |
| Fasting.Clock | js/ui/fasting.js:67 | a duration splits into hours and minutes 0..59 that make up its whole minutes |
| Fasting.OutcomeOf | js/ui/fasting.js:34-41 | a missing start is rejected; an end at or before the start is rejected; no end means a running fast; otherwise a completed fast of (end−start)/60000 minutes |
| Fasting.SavedStats | js/ui/fasting.js:43-70 | only today's entry changes and its water is kept |
| Fasting.StartedKeepsMinutes | js/ui/fasting.js:49-52 | a running fast sets the start and leaves the logged minutes |
| Fasting.LoggedAddsMinutes | js/ui/fasting.js:56-65 | a completed fast adds its minutes to today's total (missing counts as 0) and clears the start |
| Fasting.LoggedOverridesStarted | js/ui/fasting.js:49-65 | logging a completed fast after starting one gives the same stats as logging it directly |
| Fasting.Save | js/ui/fasting.js:30-73 | a rejection changes nothing; otherwise the stats become `SavedStats` and the refresh effects run |
| AnalyticsScreen.DayBand | js/ui/analytics.js:63-68 | grey iff there are no food calories; otherwise on target within ±10 %, under below, over above |
| AnalyticsScreen.Heatmap | js/ui/analytics.js:49-71 | 30 cells, oldest first, each the band of its day |
| AnalyticsScreen.DailyQuality | js/ui/analytics.js:113-114 | null iff the day has no food entries |
| AnalyticsScreen.ScoreSumBounds | js/ui/analytics.js:114 | the score sum lies between n·lo and n·hi when each score does |
| AnalyticsScreen.MeanBounds | js/ui/analytics.js:114 | a mean lies within bounds every summand keeps |
| AnalyticsScreen.QualityBounds | js/ui/analytics.js:113-114 | the daily quality lies within bounds every food score keeps |
| AnalyticsScreen.ValidCount | js/ui/analytics.js:140 | the number of non-null points is at most the length |
| AnalyticsScreen.NoValidPoints | js/ui/analytics.js:140-141 | no valid point iff every point is null |
| AnalyticsScreen.PeriodAverage | js/ui/analytics.js:140-141 | '--' iff every point is null |
| AnalyticsScreen.ValidSumBounds | js/ui/analytics.js:141 | the sum of the valid points lies between count·lo and count·hi |
| AnalyticsScreen.PeriodAverageBounds | js/ui/analytics.js:140-141 | the period average lies within bounds every point keeps |
| AnalyticsScreen.QualityColor | js/ui/analytics.js:144-149 | null is purple; green iff ≥7; red iff <4; yellow otherwise |
| AnalyticsScreen.QualityColorMonotone | js/ui/analytics.js:144-149 | a better score never gets a worse colour |
| AnalyticsScreen.LastTruthyNone | js/ui/analytics.js:132-136 | without a truthy weight the fallback is the profile weight |
| AnalyticsScreen.LastTruthyLatest | js/ui/analytics.js:132-136 | otherwise it is the latest truthy weight |
| AnalyticsScreen.LastTruthyNonZero | js/ui/analytics.js:132-136 | with a non-zero profile weight the carried value is never zero |
| AnalyticsScreen.FilledForward | js/ui/analytics.js:132-136 | filling keeps the length |
| AnalyticsScreen.FilledAllTruthy | js/ui/analytics.js:132-136 | with a non-zero profile weight no slot stays empty |
| AnalyticsScreen.FillForward | js/ui/analytics.js:132-136 | the in-place loop leaves the array equal to `FilledForward` of its old contents |
| AnalyticsScreen.HoursTotalSnoc | js/ui/analytics.js:213-217 | one more non-exercise meal adds its calories to exactly one bucket |
| AnalyticsScreen.HourlyConservation | js/ui/analytics.js:213-217 | the 24 buckets sum to the calories of all non-exercise entries (no range filter, no division) |
| AnalyticsScreen.HourlyCalories | js/ui/analytics.js:213-217 | 24 buckets, each the calories of the non-exercise entries logged in that hour |
| AnalyticsScreen.LastScoreAtSpec | js/ui/analytics.js:92-96 | an hour's point is null iff no entry scored in it; otherwise it is the score of the last such entry |
| AnalyticsScreen.HourBuckets | js/ui/analytics.js:85-96 | exercise is summed per hour, and a later meal overwrites its hour's quality point |
| AnalyticsScreen.FindWeight | js/ui/analytics.js:128 | None iff no weight entry has that date |
| AnalyticsScreen.FindMeasurement | js/ui/analytics.js:120 | None iff no entry has that date; otherwise an entry of that date |
| AnalyticsScreen.HourlyView | js/ui/analytics.js:81-105 | 24 points each; today's water sits at the current hour; weight and measurements come from today's entry, else the latest one |
| AnalyticsScreen.Window | js/ui/analytics.js:108-110 | the range days ending today, oldest first |
| AnalyticsScreen.DailyPoints | js/ui/analytics.js:108-130 | one point per window day, in order |
| AnalyticsScreen.Weights | js/ui/analytics.js:128-129 | the raw weight series of the points |
| AnalyticsScreen.DailyView | js/ui/analytics.js:106-137 | the points, with the weight series filled forward from the profile weight |
| AnalyticsScreen.ActiveCount | js/ui/analytics.js:301-302 | the active days are at most the window days |
| AnalyticsScreen.InactiveWindow | js/ui/analytics.js:312-313 | with no active day both totals are 0 |
| AnalyticsScreen.AddMicros | js/ui/analytics.js:303-308 | the inner loop adds exactly the day's food sodium and sugar |
| AnalyticsScreen.WindowSnoc | js/ui/analytics.js:296-310 | one more window day adds one active day and its micros iff it has food |
| AnalyticsScreen.MetabolicAverages | js/ui/analytics.js:291-313 | the sodium and sugar totals over active days, divided by their count, or 0 when there are none |
| AnalyticsScreen.SodiumTarget | js/ui/analytics.js:316 | the profile's sodium target when set and non-zero; 2300 when the targets are missing or the value is 0 |
| AnalyticsScreen.SugarTarget | js/ui/analytics.js:317 | the profile's sugar target when set and non-zero; 50 when the targets are missing or the value is 0 |
| AnalyticsScreen.HealthColor | js/ui/analytics.js:321-326 | green iff below 70 % of the target, red iff above it, yellow between |
| AnalyticsScreen.RatioFacts | js/ui/analytics.js:322-324 | comparing val/max is comparing val with a multiple of max |
| AnalyticsScreen.HealthColorMonotone | js/ui/analytics.js:321-326 | more intake never gets a better light |
| AnalyticsScreen.Series | js/ui/analytics.js:81-137 | range 1 feeds the hourly series; any other range feeds the daily one |
| AnalyticsScreen.Metabolic | js/ui/analytics.js:285-326 | the averages and their traffic lights as specified |
| AnalyticsScreen.RenderView | js/ui/analytics.js:24-283 | every chart array of one render, as the predicates above specify |
| AnalyticsScreen.Analytics.SetRange | js/ui/analytics.js:10-11 | the range becomes the chosen one |
| AnalyticsScreen.Analytics.Render | js/ui/analytics.js:24-283 | a render of the stored profile and ledger at the selected range |
| ContextService.RangeOf | js/services/context.js:7 | an unset range is 1; any other is kept |
| ContextService.WindowedSpec | js/services/context.js:17-20 | an entry is kept iff its timestamp's day lies in [today−(range−1), today], with its multiplicity |
| ContextService.AgreesWithDashboard | js/services/context.js:29-43 | the coach's intake, burned and macro sums over any entries equal the dashboard totals of js/app.js over the same entries |
| ContextService.FoodCountSpec | js/services/context.js:29-43 | foodCount counts exactly the non-exercise entries; it is 0 iff all are exercise |
| ContextService.PeriodTotalsLoop | js/services/context.js:29-43 | the forEach computes `TotalsOf` |
| ContextService.WaterTotalWindow | js/services/context.js:47-52 | only the range's days affect the water total |
| ContextService.WaterLoop | js/services/context.js:46-52 | the loop sums the water of the range's days that have stats |
| ContextService.Average | js/services/context.js:66-67 | the raw total for a range of one day; otherwise within half a unit of total/range |
| ContextService.Score | js/services/context.js:68 | 'N/A' iff foodCount is 0 |
| ContextService.ScoreSumBounds | js/services/context.js:68 | the food score sum lies between foodCount·lo and foodCount·hi when every entry is typed |
| ContextService.ScoreBounds | js/services/context.js:68 | the score then lies within [lo, hi] |
| ContextService.GetFilteredData | js/services/context.js:6-76 | range, window, totals, water, averages, score and targets (target·range, 2500·range) as specified |
| Shopping.Toggled | js/ui/shopping.js:84-91 | keeps the length; an index naming no item leaves the list unchanged |
| Shopping.ToggledSpec | js/ui/shopping.js:87 | a valid toggle flips exactly that item's flag; every other item and category is kept |
| Shopping.ToggleTwice | js/ui/shopping.js:87 | toggling the same item twice restores the list |
| Shopping.ToggleCommute | js/ui/shopping.js:87 | toggles of different items commute |
| Shopping.ToggleCheck | js/ui/shopping.js:84-91 | no list or an invalid index writes nothing; otherwise the toggled list is stored |
| Shopping.ShareText | js/ui/shopping.js:97-105 | the shared text is the header followed by the list's text, and a non-empty list's text ends with its last category's block |
| Shopping.BodyAppend | js/ui/shopping.js:98-105 | the text of a list is the concatenation of its categories' blocks |
| Shopping.BodyEndsWithNewline | js/ui/shopping.js:104 | the text of a non-empty list ends with a newline |
| Shopping.CategoryBlock | js/ui/shopping.js:99-104 | the inner loop builds "*cat*\n", a "✅/⬜ name (qty)\n" line per item, then "\n" |
| Shopping.ShareLoop | js/ui/shopping.js:97-105 | the outer loop builds the header followed by every category's block |
| Shopping.Share | js/ui/shopping.js:93-105 | no text iff there is no list |
| Shopping.Generate | js/ui/shopping.js:6-8 | without a plan nothing is requested; otherwise the stored plan is passed on |
| I18n.Lookup | js/services/i18n.js:34-35 | a segment resolves iff the value is a table holding a truthy entry under it |
| I18n.MissingStays | js/services/i18n.js:33-51 | once a prefix of the path is missing, the whole path is missing |
| I18n.ResolveAppend | js/services/i18n.js:33-36 | resolving a path equals resolving its parts in turn |
| I18n.Split | js/services/i18n.js:30 | at least one segment, none containing '.' |
| I18n.JoinSplit | js/services/i18n.js:30 | joining the segments with '.' gives the key back |
| I18n.FindFrom | js/services/i18n.js:59 | the first occurrence of the pattern at or after a position, or None iff there is none |
| I18n.ReplaceFirst | js/services/i18n.js:59 | only the first occurrence is replaced; without one the text is unchanged |
| I18n.NoBraceNoPlaceholder | js/services/i18n.js:59 | text without '{' holds no placeholder |
| I18n.SubstituteNoBrace | js/services/i18n.js:58-60 | parameters leave text without '{' unchanged |
| I18n.TableOf | js/services/i18n.js:6-9 | exactly pt-BR and en-US have tables |
| I18n.PtBRMissingGivesKey | js/services/i18n.js:49-51 | in pt-BR a missing path returns the key |
| I18n.MissingFallsBack | js/services/i18n.js:38-48 | in another locale a missing path gives the pt-BR translation |
| I18n.UnsupportedIsPtBR | js/services/i18n.js:31-48 | an unsupported locale translates as pt-BR |
| I18n.FoundTableGivesKey | js/services/i18n.js:55 | a path ending at a sub-table returns the key |
| I18n.FoundTextWins | js/services/i18n.js:55-62 | a path ending at text returns the text with its parameters substituted |
| I18n.InitLocale | js/services/i18n.js:13-23 | a stored preference wins; otherwise en-US iff the browser language starts with "en", else pt-BR |
| I18n.I18nService.Init | js/services/i18n.js:11-23 | the locale becomes `InitLocale` |
| I18n.I18nService.SetLocale | js/services/i18n.js:65-71 | an unsupported locale changes nothing; a supported one is set and persisted |
| I18n.I18nService.FallbackLoop | js/services/i18n.js:39-47 | the inner loop resolves the whole path in pt-BR |
| I18n.I18nService.FillParams | js/services/i18n.js:58-60 | the forEach computes `Substitute` |
| I18n.I18nService.T | js/services/i18n.js:29-63 | `t` returns `Translate` of the current locale |
| Api.TodayOf | js/services/api.js:17-18 | keeps only today's entries of the given type |
| Api.TodayOfSnoc | js/services/api.js:17-18 | one more entry is kept iff it is today's and of that type |
| Api.SumsSnoc | js/services/api.js:19-24 | the sums grow by exactly the new entry |
| Api.RemainingFor | js/services/api.js:26-32 | calories are target − (today's food calories − today's exercise calories), unclamped, so they exceed the target iff more was burned than eaten; p/c/f are max(0, goal − eaten) |
| Api.FoodLowersRemaining | js/services/api.js:26-32 | a food entry lowers the calories left by exactly its calories and never raises the macros left |
| Api.ExerciseRaisesRemaining | js/services/api.js:26-32 | an exercise entry raises the calories left by exactly its calories and keeps the macros left |
| Api.RemoveAll | js/services/api.js:203 | removing a pattern never lengthens the text |
| Api.FenceFreeFront | js/services/api.js:203 | after removing every "```", none is left starting at the front |
| Api.RemoveFencesComplete | js/services/api.js:203 | no "```" is left anywhere |
| Api.StripFencesComplete | js/services/api.js:203 | the stripped reply holds no code fence |
| Api.RemoveAllAbsent | js/services/api.js:203 | a text without the pattern's first character is unchanged |
| Api.StripFencesPlain | js/services/api.js:203 | a reply without backticks is unchanged |
| Api.FirstIndex | js/services/api.js:205 | the first position of a character, or None iff it does not occur |
| Api.LastIndex | js/services/api.js:205 | the last position of a character, or None iff it does not occur |
| Api.ObjectBounds | js/services/api.js:205 | a '{' … '}' span exists iff some '{' comes before some '}' |
| Api.ExtractObject | js/services/api.js:205-206 | None iff there is no span; otherwise the greedy span from the first '{' to the last '}' |
| Api.Decode | js/services/api.js:201-207 | NoJson iff the stripped reply has no span; success holds the parse of the extracted span |
| Api.AnalyzeOutcome | js/services/api.js:128-215 | no credits is checked first, then missing input; success needs a candidate, a span and a parse |
| Api.Charged | js/services/api.js:215 | exactly one credit less, nothing else changed |
| Api.AnalyzeAI | js/services/api.js:128-229 | a failure changes neither profile nor review; success opens the review with the items and stores the entry snapshot minus one credit |
| Api.AnalyzeKeepsUsage | js/services/api.js:209-215 | the charged snapshot does not carry the usage update made before it |
| Api.FridgeOutcome | js/services/api.js:55-113 | missing input is checked before credits; success carries the unclamped calories left |
| Api.FridgeClearout | js/services/api.js:55-126 | success stores the snapshot minus one credit; a reply without a candidate keeps only the usage update; any other failure changes nothing |
| Api.ExerciseOutcome | js/services/api.js:244-298 | a missing description is checked before credits |
| Api.AnalyzeExercise | js/services/api.js:244-308 | success stores the snapshot minus one credit; only a missing candidate records usage; any other failure changes nothing |
| Api.SuggestMeal | js/services/api.js:11-32 | no request iff there are no credits; otherwise the remaining budget |
| Api.GateOrder | js/services/api.js:13 | analyzeAI checks credits before input, while the fridge and exercise actions check input first |
| Legacy.LegacyProfileOf | app.js:46-56 | the legacy default has no micro targets; only the two histories are filled |
| Legacy.Threshold | app.js:91 | `levels[level]` inside the table, 999999 outside it or at level 0 |
| Legacy.XpAdded | app.js:85-99 | XP accumulates and is never reset; reaching the threshold gives exactly one level and +5 credits; credits − 5·level is invariant |
| Legacy.XpRunSpec | app.js:85-99 | over a run of calls the XP is the sum, at most one level per call, each paid with 5 credits |
| Legacy.PastTableLevelsEveryCall | app.js:91 | past the table, XP above 999999 levels up on every call |
| Legacy.AddXP | app.js:85-99 | the stored profile becomes `XpAdded` of the legacy profile read |
| Legacy.NextAboveBase | app.js:163-164 | the next level's XP always lies above the current base, so the bar's divisor is positive |
| Legacy.Progress | app.js:163-166 | at most 100; exactly 100 iff XP reached the next level; non-negative from the base on |
| Legacy.ProgressMonotone | app.js:165-166 | more XP never shrinks the bar |
| Legacy.StreakStepped | app.js:105-121 | same day is a no-op; yesterday gives current+1, anything else 1; lastLogin becomes today; max ≥ current and is the old max or the new current |
| Legacy.ConsecutiveLogins | app.js:110-117 | n consecutive logins after a gap give a streak of n with max ≥ n |
| Legacy.CheckStreak | app.js:105-121 | same day changes nothing; otherwise the record is stepped and 10 XP is awarded |
| Legacy.LegacyRules | app.js:129-135 | the five legacy rules, with the streak record's current count |
| Legacy.BadgesStoredSpec | app.js:137-146 | no duplicate badges, every passing rule's badge held, and XP, level and credits as before (the 50 XP per badge is lost) |
| Legacy.CheckBadges | app.js:123-150 | the loop with its nested addXP(50) calls ends in `BadgesStored` |
| Legacy.Refreshed | app.js:637-638 | a same-day refresh leaves the streak record alone; an updated record keeps max ≥ current |
| Legacy.Refresh | app.js:637-638 | checkBadges then checkStreak give `Refreshed` |
| Legacy.IntOr0 | app.js:1115-1120 | `parseInt(v) \|\| 0`: the number, or 0 when it does not parse |
| Legacy.ReviewEntry | app.js:1113-1124 | a food entry of the current category: whole numbers or 0, no fibre, score 5 |
| Legacy.LegacyApp.AddMealToDB | app.js:1249-1255 | appends one stamped meal, adds 20 XP, then refreshes |
| Legacy.LegacyApp.DeleteMeal | app.js:867-871 | removes every meal with the id, then refreshes |
| Legacy.LegacyApp.AddWater | app.js:849-854 | today's water grows by ml with no floor, then the refresh runs |
| Legacy.LegacyApp.ToggleFasting | app.js:856-865 | the stats become `FastingToggled`, then the refresh runs |
| Legacy.LegacyApp.CancelReview | app.js:1138-1142 | drops the pending review |
| Legacy.LegacyApp.ConfirmReview | app.js:1110-1136 | does nothing without review data; otherwise it logs one `ReviewEntry` meal, awards 20 XP, refreshes and clears the review |

## Left out

- DOM rendering, styling, alerts, confetti, modals, Chart.js drawing, camera, voice and service-worker plumbing. They hold no ledger state. For charts, only the arrays they are fed are modelled.
- Network calls and prompt texts. The model's reply is a parameter, and `JSON.parse` of the extracted span is a decoder parameter.
- Which missing field of the reply (`content`, `parts`) made the request throw is not distinguished; a reply either has a candidate with text or it does not.
- `generateShoppingList`, chat and the planner: they are awaited service calls and screens. `Shopping.Generate` only models the guard in front of the call.
- The share URL and `window.open` that follow the share text.
- Store.KeyValueStore.Import: copies every prefixed pair. In the source a write refused part-way through the loop (a quota error) stops the import, leaving the backup partly imported; the model does not capture that.
- The weight projection of the analytics screen: a fixed 1.2 kg subtracted from the current weight, written only to the page.
- Ledger writes are assumed to succeed: the mutators of `Database.Ledger` always store their new record. A write the browser refuses (the caught quota error, which keeps the old value) is modelled only in the raw layer, `Store.Written` and `Store.FailedWriteKeepsValue`.
- Time zones and `moment` calendar arithmetic: a day is an integer day number and "yesterday" is that number minus one.
- Floating point: calories, weights, water and macros are exact reals. `toFixed` formatting is not modelled. `Math.round` is `Round`.
- Non-numeric junk inside stored records (a string where a number is expected): records are typed.
- The `notes`, `mood` and `fastingEnd` fields of a day's stats: nothing reads them.
- The day stats' `fastingMinutes` field is read as a number or missing. The `|| 0` of the fasting editor is modelled.
- `Fasting.save`'s own initialisation of a missing today entry: `getDayStats` has already created one, so that branch never runs.
- `getCombos`, `getPlanner` and `getShoppingList` are called but not defined in js/data/database.js. They are modelled as plain reads that default to empty or absent.
- js/config.js is not part of this model. The storage prefix is the one the earlier revision declares.
- Translation tables are abstract nested tables. Properties inherited from `Object.prototype`, property lookups on strings, and `$` patterns in `String.prototype.replace` are not modelled. `translatePage` and the moment locale switch are DOM and library calls.
- Reminder and fasting timers, notifications, onboarding, the theme, the API key screen, `resetApiUsage`, export and `location.reload`.
- `addManual` and `addExercise` of js/app.js: they are form readers that pass one entry to `addMealToDB`, which is modelled.
- The dashboard feed and macro bars of the legacy `refreshUI`: the same totals are modelled for js/app.js in `AppLogic.DailyTotals`.
- AppLogic.App.AddItems: states the meals exactly, but states the profile only as "at most one level per item, each paid with 5 credits, last activity today". It does not state the exact XP after a batch of nested `addXP`/refresh calls.
- AppLogic.App.ConfirmReview: states the profile through `AddItems`'s bound, not exactly.
- AppLogic.App.AddCombo: states the profile through `AddItems`'s bound, not exactly.
- Legacy.LegacyApp.ConfirmReview: a pending review's contents are not read; the form values are parameters, as the legacy code reads them from the form.
