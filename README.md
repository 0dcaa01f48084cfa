# Fitness tracker calorie logic in Dafny

This project models the calorie logic of a small fitness tracker. The tracker
is an Ionic/Angular client with PHP endpoints over a MySQL database. The
model covers five parts:

- the exercises page (`Exercises`): the exercise list and its summary totals,
  deletion, the add/edit form with its calories-per-minute recomputation, the
  suggestion lists, the search result and the keyword classifier for custom
  exercises;
- the profile page (`Profile`): the daily calorie goal from the revised
  Harris-Benedict equations and an activity multiplier, the normalisation of
  a loaded profile, and the conversion of a camera data URL into an upload
  file;
- the dashboard page (`Home`): goal defaulting, the numeric coercion of the
  daily summary, the goal percentage and the weekly chart data;
- the daily-summary endpoint (`DailySummaryApi`): the `??` defaults, the two
  SUMs for today and the unclamped remaining calories;
- the weekly-summary endpoint (`WeeklySummaryApi`): the seven-slot
  weekday array, filled by a loop that overwrites.

Shared pieces:

- `Optional` defines Option and Result.
- `JsRuntime` defines the JavaScript built-ins the pages use:
  - `Math.round`;
  - the `+x || 0` coercion and the `x || d` fallback;
  - `toLowerCase`, `includes` and one-character `split`;
  - the Uint8Array store.
- `StoreRows` defines database rows, SQL SUM and ISO weekdays over day
  numbers.
- `Dashboard` relates the dashboard page to the two endpoints.

The pages are classes whose fields the callbacks update. On the exercises
page, `State()` gathers every field into a `PageState` value. Each method's
new state is stated as a function of the old one, and the properties are
lemmas about those functions. The endpoints are pure functions, except for
the weekly loop. That loop is a method over an array, proved against
`LastOnWeekday`.

Modelling conventions:

- JavaScript numbers are exact reals.
- `Math.round(x)` is `floor(x + 1/2)`.
- A JSON field that may be missing or null is an `Option`; a falsy 0 or `''`
  is tested explicitly.
- Dates on the server are day numbers counted from 1970-01-01, which was a
  Thursday.
- "Today" and "now" are parameters.

Two consequences of the code are worth stating outright:

- The weekly loop ASSIGNS each row to its weekday slot
  (`api/weekly-summary.php:49`). It does not add rows together.
- For a 25-year-old man of 70 kg and 175 cm, the BMR equation gives 1724.052,
  and the TDEE at "Moderately active" is 2672.

## Model

| member | source | states |
|---|---|---|
| Exercises.FromRaw | src/app/exercises/exercises.page.ts:124-132 | each listed row keeps its id, owner and name; a missing category, duration, calories or date becomes '', 0, 0 or the current time |
| Exercises.InferCategory | src/app/exercises/exercises.page.ts:405-424 | the category is one of the five; cardio iff a cardio keyword occurs in the lower-cased name, strength iff none does and a strength keyword does, flexibility likewise after both, other iff no keyword of any group occurs |
| Exercises.InferCategoryIgnoresCase | src/app/exercises/exercises.page.ts:406 | two names that lower-case to the same text get the same category |
| Exercises.InferCategoryOfLowerCase | src/app/exercises/exercises.page.ts:406 | classifying the lower-cased name gives the same category |
| Exercises.YogaBalancePosesIsFlexibility | src/app/exercises/exercises.page.ts:407-419 | "Yoga Balance Poses" is flexibility, because the yoga test comes before the pose test |
| Exercises.NoCardioKeyword | src/app/exercises/exercises.page.ts:407-410 | a name lacking the letters r, j, w, i (and y after its first letter) matches no cardio keyword |
| Exercises.NoStrengthKeyword | src/app/exercises/exercises.page.ts:412-414 | a name lacking the letters i, u, w, t matches no strength keyword |
| Exercises.CaloriesOf | src/app/exercises/exercises.page.ts:159 | an entry's `caloriesBurned || 0` is its calories, since a falsy 0 falls back to 0 |
| Exercises.Total | src/app/exercises/exercises.page.ts:155-159 | the reduce total is 0 for no entries, and for non-negative values it is non-negative and at least every single value |
| Exercises.TotalAppend | src/app/exercises/exercises.page.ts:158-159 | the reduce totals are additive over concatenation |
| Exercises.WithSummary | src/app/exercises/exercises.page.ts:155-159 | after calculateSummary the count is the list length and the totals are the sums of durations and calories; every other field, the list included, is kept |
| Exercises.WithoutId | src/app/exercises/exercises.page.ts:257 | an entry survives the delete filter iff it was in the list and its id differs |
| Exercises.WithoutIdAppend | src/app/exercises/exercises.page.ts:257 | the filter keeps the order of the remaining entries (it distributes over concatenation) |
| Exercises.WithoutAbsentId | src/app/exercises/exercises.page.ts:257 | deleting an id the list does not hold leaves it unchanged |
| Exercises.WithoutIdIdempotent | src/app/exercises/exercises.page.ts:257 | deleting the same id twice is deleting it once |
| Exercises.DeletePartition | src/app/exercises/exercises.page.ts:257-258 | the kept and removed entries split the count and every total exactly |
| Exercises.CaloriesFor | src/app/exercises/exercises.page.ts:434 | `Math.round(duration * caloriesPerMinute)` is an integer within one half of the product |
| Exercises.AfterUpdateCalories | src/app/exercises/exercises.page.ts:428-439 | updateCalories changes at most the draft's calories, only when both rate and duration are positive, and then sets them to Math.round(duration × rate) |
| Exercises.UpdateCaloriesBound | src/app/exercises/exercises.page.ts:433-434 | the recomputed calories are a whole number within one half of duration × rate |
| Exercises.AfterResetExerciseForm | src/app/exercises/exercises.page.ts:518-529 | empty draft dated now, rate 0, calories editable, no search result; every other field is kept |
| Exercises.AfterResetForm | src/app/exercises/exercises.page.ts:292-305 | edit mode off, no edited id, empty draft dated now; every other field is kept |
| Exercises.UpdateCaloriesIdempotent | src/app/exercises/exercises.page.ts:428-439 | recomputing twice is recomputing once |
| Exercises.RecomputedCalories | src/app/exercises/exercises.page.ts:90 | calories divided by a duration and multiplied back round to the rounded calories |
| Exercises.AfterFillFromExercise | src/app/exercises/exercises.page.ts:505-516 | the form takes name, duration and category (classified for a custom type), the rate is calories / duration, the calories field turns read-only; calories are recomputed exactly when duration and calories are positive, and then equal the rounded calories |
| Exercises.EditThenRecomputeIsStable | src/app/exercises/exercises.page.ts:79-95 | opening an exercise with whole positive calories for editing and recomputing gives back the same form |
| Exercises.AfterExercisesLoaded | src/app/exercises/exercises.page.ts:121-139 | a non-empty answer becomes the mapped list with consistent totals and every other field kept; an empty answer only empties the list |
| Exercises.StaleTotalsAfterEmptyLoad | src/app/exercises/exercises.page.ts:135-138 | after a non-empty list, an empty answer leaves totals that do not describe the list |
| Exercises.AfterExercisesLoadedRecomputing | src/app/exercises/exercises.page.ts:121-139 | with the summary recomputed on both branches the totals always describe the list, and are all 0 for an empty answer; only the list and the totals change |
| Exercises.SuggestionsFor | src/app/exercises/exercises.page.ts:448 | the suggestion list of a known type, and the empty list for any other |
| Exercises.ExercisesPage.constructor | src/app/exercises/exercises.page.ts:17-55 | the initial fields: empty list, zero totals and rate, empty draft dated now, calories read-only |
| Exercises.ExercisesPage.CalculateSummary | src/app/exercises/exercises.page.ts:155-159 | the new state is WithSummary of the old one |
| Exercises.ExercisesPage.OnExercisesLoaded | src/app/exercises/exercises.page.ts:121-139 | the new state is AfterExercisesLoaded of the old one |
| Exercises.ExercisesPage.OnExercisesLoadedRecomputing | src/app/exercises/exercises.page.ts:121-139 | the new state is AfterExercisesLoadedRecomputing of the old one, so the summary is consistent |
| Exercises.ExercisesPage.OnExerciseDeleted | src/app/exercises/exercises.page.ts:257-258 | the list loses exactly the entries with that id; each total drops by exactly what the removed entries contributed |
| Exercises.ExercisesPage.ResetExerciseForm | src/app/exercises/exercises.page.ts:518-529 | empty draft, rate 0, calories editable, no search result; nothing else changes |
| Exercises.ExercisesPage.ResetForm | src/app/exercises/exercises.page.ts:292-305 | leaves edit mode and empties the draft; nothing else changes |
| Exercises.ExercisesPage.OpenModal | src/app/exercises/exercises.page.ts:79-95 | editing copies the exercise's five fields, its id and the rate calories / duration; otherwise the exercise form is reset; the modal is open either way |
| Exercises.ExercisesPage.CloseModal | src/app/exercises/exercises.page.ts:97-99 | only the modal flag changes, to closed |
| Exercises.ExercisesPage.BeginSave | src/app/exercises/exercises.page.ts:186-193 | the draft is dated now; an update of the edited id is sent iff in edit mode with an id, an add otherwise |
| Exercises.ExercisesPage.OnSaveSucceeded | src/app/exercises/exercises.page.ts:205-206 | the modal closes and the form is reset |
| Exercises.ExercisesPage.UpdateCalories | src/app/exercises/exercises.page.ts:428-439 | the new state is AfterUpdateCalories of the old one; with positive rate and duration the calories become Math.round(duration × rate) |
| Exercises.ExercisesPage.OnDurationChange | src/app/exercises/exercises.page.ts:531-537 | recomputes only when the rate is positive, and otherwise changes nothing |
| Exercises.ExercisesPage.OnCaloriesFocus | src/app/exercises/exercises.page.ts:441-443 | only the read-only flag changes, to editable |
| Exercises.ExercisesPage.OnExerciseTypeSelect | src/app/exercises/exercises.page.ts:445-456 | a listed type offers its suggestions and clears the chosen suggestion; custom clears the suggestions and the custom name; either way the search result is cleared |
| Exercises.ExercisesPage.OnSearchResult | src/app/exercises/exercises.page.ts:476-487 | the first match is kept with its calories rounded; no match clears the result |
| Exercises.ExercisesPage.PopulateExerciseDetails | src/app/exercises/exercises.page.ts:505-516 | with a kept result the state becomes AfterFillFromExercise of it; without one nothing changes |
| Exercises.ExercisesPage.SelectNutritionixExercise | src/app/exercises/exercises.page.ts:394-403 | the state becomes AfterFillFromExercise of the chosen entry |
| Exercises.ExercisesPage.UpdateExerciseDetails | src/app/exercises/exercises.page.ts:388-392 | duration, rounded calories and rate come from the entry; nothing else changes |
| Profile.CalculateTDEE | src/app/profile/profile.page.ts:300-309 | the TDEE is BMR × the level's multiplier to within one half |
| Profile.CalculateCalorieGoal | src/app/profile/profile.page.ts:278-288 | 2000 if some input is falsy; otherwise the TDEE of the BMR of the inputs |
| Profile.Multiplier | src/app/profile/profile.page.ts:301-307 | every multiplier lies in 1.2..1.9; 1.2 exactly for Sedentary, 1.9 exactly for Super active |
| Profile.CalculateBMR | src/app/profile/profile.page.ts:291-297 | exactly "male" gets 88.362 + 13.397·weight + 4.799·height − 5.677·age, every other gender 447.593 + 9.247·weight + 3.098·height − 4.330·age |
| Profile.Incomplete | src/app/profile/profile.page.ts:281 | a profile is complete iff age, weight and height are nonzero, the gender is non-empty and a level is chosen |
| Profile.MultipliersIncrease | src/app/profile/profile.page.ts:301-307 | the multipliers strictly increase from Sedentary to Super active |
| Profile.TdeeMonotoneInLevel | src/app/profile/profile.page.ts:300-309 | for a non-negative BMR a more active level never gives a smaller TDEE |
| Profile.TdeeMonotoneInBmr | src/app/profile/profile.page.ts:308 | a larger BMR never gives a smaller TDEE |
| Profile.BmrMonotone | src/app/profile/profile.page.ts:291-297 | more weight or height, or fewer years, never lowers the BMR under either equation |
| Profile.OnlyExactMaleUsesFirstEquation | src/app/profile/profile.page.ts:292 | any gender other than exactly "male" gets the second equation |
| Profile.WorkedExample | src/app/profile/profile.page.ts:293-308 | BMR(25, 70, 175, male) = 1724.052, its Moderately active TDEE is 2672, and so is the goal of that profile |
| Profile.GoalMonotoneInLevel | src/app/profile/profile.page.ts:285-287 | for a complete profile with non-negative BMR, raising the activity level never lowers the goal |
| Profile.RecalculationIdempotent | src/app/profile/profile.page.ts:312-314 | the goal ignores the stored goal and the name, so recalculating twice changes nothing |
| Profile.Normalize | src/app/profile/profile.page.ts:140-142 | a falsy goal becomes 2000 and a missing level Sedentary; every other field is kept |
| Profile.LoadedProfileIncompleteness | src/app/profile/profile.page.ts:141-142 | after a load, the profile is incomplete iff age, weight, height or gender is falsy |
| Profile.MimeOf | src/app/profile/profile.page.ts:232 | the MIME type extracted contains none of ',', ':' and ';' |
| Profile.MimeOfDataUrl | src/app/profile/profile.page.ts:232 | the MIME type is the text between the first ':' and the next ';', ':' or ',' |
| Profile.JpegDataUrl | src/app/profile/profile.page.ts:232 | a camera JPEG data URL has type image/jpeg |
| Profile.MimeOfWithoutColon | src/app/profile/profile.page.ts:232 | a header without ':' makes the extraction fail |
| Profile.DataUriToBlob | src/app/profile/profile.page.ts:230-239 | a blob results iff the decoding and the MIME extraction succeed; it has the decoded string's length, byte i is char code i modulo 256, and its type is the extracted MIME type |
| Profile.BytesAreCharCodes | src/app/profile/profile.page.ts:235-237 | for a decoded string of char codes below 256, byte i is exactly char code i |
| Profile.ProfilePage.constructor | src/app/profile/profile.page.ts:45-49 | the page starts from the default profile named after the signed-in user |
| Profile.ProfilePage.OnProfileChange | src/app/profile/profile.page.ts:312-314 | only the stored goal changes, to the recalculated goal |
| Profile.ProfilePage.OnProfileLoaded | src/app/profile/profile.page.ts:138-150 | a successful load keeps the normalised profile and a JPEG data URL of a non-empty picture; a failed one changes nothing |
| Profile.ProfilePage.OnPictureTaken | src/app/profile/profile.page.ts:198-206 | a missing or empty data URL changes nothing; any other becomes the preview, and a successful conversion gives the upload file profile_picture.jpg of type image/jpeg whose byte i is decoded char code i modulo 256 |
| Home.SessionUserId | src/app/home/home.page.ts:60-76 | a user id results iff a user is stored and has a truthy id |
| Home.GoalFrom | src/app/home/home.page.ts:81 | the goal is never 0: a truthy stored goal is kept, otherwise 2000 |
| Home.GoalPercentage | src/app/home/home.page.ts:105 | percentage × goal = (consumed + burned) × 100 |
| Home.PercentageFullIffGoalReached | src/app/home/home.page.ts:105 | the percentage is 100 iff consumed plus burned equals the goal |
| Home.BurningRaisesPercentage | src/app/home/home.page.ts:105 | with a positive goal, burning more raises the percentage (burned is added, not subtracted) |
| Home.ToWeeklyData | src/app/home/home.page.ts:123 | same length as the answer; entry i is the number, or 0 when it is not one |
| Home.HomePage.constructor | src/app/home/home.page.ts:17-22 | all figures 0, no weekly data, goal 2000 |
| Home.HomePage.OnProfileData | src/app/home/home.page.ts:80-86 | with a profile the goal is set and exactly the daily (with that goal) and weekly requests are made; without one nothing changes and nothing is requested |
| Home.HomePage.OnDailySummary | src/app/home/home.page.ts:101-105 | each figure is its field's number or 0 and the percentage follows from them; no answer changes nothing |
| Home.HomePage.OnWeeklySummary | src/app/home/home.page.ts:122-123 | a list in the answer becomes the weekly data; none changes nothing |
| Home.LoadDashboard | src/app/home/home.page.ts:80-82 | the daily request carries a nonzero goal, so the percentage it leads to is defined |
| DailySummaryApi.RequestUserId | api/daily-summary.php:31 | a missing user_id parameter gives 0 |
| DailySummaryApi.FetchProfile | api/daily-summary.php:34-37 | the first profile row of the user, and none iff the user has no row |
| DailySummaryApi.GoalOf | api/daily-summary.php:39 | a stored goal, 0 included, is kept; no row or a NULL goal gives 2000 |
| DailySummaryApi.DailySummaryOf | api/daily-summary.php:31-60 | burned and consumed are the sums of the user's rows dated today; remaining is goal minus consumed |
| DailySummaryApi.EmptyDay | api/daily-summary.php:53-60 | with no rows today the answer is {0, 0, goal} |
| DailySummaryApi.RemainingIgnoresExercise | api/daily-summary.php:59 | remaining does not depend on the exercise table |
| DailySummaryApi.RemainingMayBeNegative | api/daily-summary.php:59 | remaining is not clamped: goal 1800 and 2500 eaten give -700 |
| DailySummaryApi.StoredZeroGoalKept | api/daily-summary.php:39 | a stored goal of 0 makes remaining exactly minus the intake |
| DailySummaryApi.LogExercise | api/daily-summary.php:42-45 | one more exercise row of the user today adds its calories to burned and changes nothing else; any other row changes nothing |
| DailySummaryApi.LogMeal | api/daily-summary.php:48-59 | one more meal of the user today adds its calories to consumed and takes them off remaining |
| StoreRows.SqlSum | api/daily-summary.php:42 | SUM is NULL iff no row is selected, and otherwise the sum |
| StoreRows.SqlSumOrZero | api/daily-summary.php:53-54 | SUM ?? 0 is the sum, 0 for no rows |
| StoreRows.CaloriesWhere | api/daily-summary.php:42-48 | no more values than rows, and every value is the calories of a row the WHERE clause selects |
| StoreRows.OwnedOn | api/daily-summary.php:42-48 | the WHERE clause selects a row iff it is the user's and dated on that day |
| StoreRows.CaloriesWhereComplete | api/daily-summary.php:42-48 | every row the WHERE clause selects contributes its calories to the selection |
| StoreRows.CaloriesWhereAppend | api/daily-summary.php:42 | the selected values of two row lists concatenate |
| StoreRows.CaloriesWhereNone | api/daily-summary.php:42 | when no row is selected nothing is summed |
| StoreRows.IsoWeekday | api/weekly-summary.php:47-48 | the weekday lies in 1..7, so the slot index lies in 0..6, and it is Monday (1) exactly on the days 4 + 7k |
| StoreRows.EpochIsThursday | api/weekly-summary.php:47-48 | day 0 (1970-01-01) is a Thursday (4) and day 4 a Monday (1) |
| StoreRows.WeekdayPeriodic | api/weekly-summary.php:48 | weekdays repeat every seven days |
| StoreRows.WeekdaysDistinct | api/weekly-summary.php:36 | seven consecutive days have seven different weekdays |
| WeeklySummaryApi.InQueryWindow | api/weekly-summary.php:36 | today and the six days before it are in the window, any later date is too (no upper bound), any earlier one is not |
| WeeklySummaryApi.IsWeeklyQueryResult | api/weekly-summary.php:31-37 | over an empty table the only answer of the grouped query is the empty one |
| WeeklySummaryApi.WeeklyBuckets | api/weekly-summary.php:43-50 | exactly 7 slots; slot k holds the value of the last row dated on weekday k+1, or 0 |
| WeeklySummaryApi.UnmatchedWeekdayIsZero | api/weekly-summary.php:43-50 | a weekday no row falls on keeps its 0 |
| WeeklySummaryApi.OnlyRowOnWeekday | api/weekly-summary.php:47-49 | the only row on a weekday lands in that weekday's slot |
| WeeklySummaryApi.LaterRowOverwrites | api/weekly-summary.php:49 | of two rows a week apart only the later value is kept |
| WeeklySummaryApi.FutureRowOverwritesWindow | api/weekly-summary.php:36 | with no upper date bound, a row dated tomorrow overwrites the slot of the day six days ago |
| WeeklySummaryApi.BucketsMatchWindow | api/weekly-summary.php:34-50 | without future rows, each slot is the user's calories on that weekday of the last seven days |
| WeeklySummaryApi.WeekdaysPartitionWindow | api/weekly-summary.php:34-37 | the seven weekday totals of the window add up to the window's total |
| WeeklySummaryApi.WeeklyTotalMatchesWindow | api/weekly-summary.php:34-50 | without future rows the slots add up to what the user burned in the last seven days |
| Dashboard.ShowDailySummary | src/app/home/home.page.ts:101-105 | the page shows the endpoint's three numbers unchanged, zeros included, and the percentage counts burned on top of intake |
| Dashboard.WeeklyChartShowsSlots | src/app/home/home.page.ts:123 | the weekly chart receives the endpoint's slots in order |
| Dashboard.GoalsAgreeUnlessZero | src/app/home/home.page.ts:81 | page and endpoint use the same goal unless the stored goal is 0 |
| Dashboard.ZeroGoalDisagrees | src/app/home/home.page.ts:81 | a stored 0 goal is 2000 on the page but 0 at the endpoint |
| Dashboard.RemainingAgreesWithPageGoal | api/daily-summary.php:59 | when the stored goal is not 0, remaining plus intake equals the goal the page divides by |
| JsRuntime.Round | src/app/profile/profile.page.ts:308 | Math.round lands within one half of its argument |
| JsRuntime.NumberOrZero | src/app/home/home.page.ts:102-104 | `+x || 0` is the number, and 0 for NaN |
| JsRuntime.NumberOr | src/app/exercises/exercises.page.ts:124-132 | `x || d` keeps a present nonzero number and otherwise gives d |
| JsRuntime.StringOr | src/app/exercises/exercises.page.ts:124-132 | `x || d` keeps a present non-empty string and otherwise gives d |
| JsRuntime.ToLower | src/app/exercises/exercises.page.ts:406 | same length, no upper-case letter left, an upper-case letter moved down by 32, every other character kept |
| JsRuntime.Includes | src/app/exercises/exercises.page.ts:407 | includes is true iff the keyword occurs at some position |
| JsRuntime.Split | src/app/profile/profile.page.ts:232 | split gives at least one part, none holding the separator, all made of the string's characters |
| JsRuntime.JoinSplit | src/app/profile/profile.page.ts:232 | joining the parts of a split gives back the string |
| JsRuntime.ToUint8 | src/app/profile/profile.page.ts:236 | a Uint8Array store keeps the value modulo 256 |

## Left out

- Server calls, loading indicators, toasts, alerts and router navigation. Each
  callback is a method that receives the answer, and a request is returned
  as a value.
- Chart.js rendering (loadExerciseChart, loadProgressChart, loadWeeklyChart
  and resetCharts): it only draws the fields the model keeps.
- IEEE-754 doubles: numbers are exact reals. Where the code divides by a
  duration (openModal, populateExerciseDetails, selectNutritionixExercise,
  updateExerciseDetails) or by the goal, the model requires a nonzero
  divisor, so Infinity and NaN rates are not modelled.
- toLowerCase is modelled for ASCII letters only; other Unicode case
  mappings are not.
- `atob` (base64 decoding) is a foreign call. Its result, or None when it
  throws, is a parameter of DataUriToBlob.
- SQL evaluation, CURDATE() and PHP DateTime. Tables are sequences of rows,
  dates are day numbers, today is a parameter, and the GROUP BY answer is
  given as a sequence that satisfies `IsWeeklyQueryResult`.
- A NULL `calories_burned` or `calories` column inside a SUM is not
  represented; rows always carry a number.
- Exercises.ExercisesPage.BeginSave: the form-validity early return and the
  user id read from localStorage are inputs to the caller, not modelled.
- setInitialDateRange, applyFilter, onDateChange and the date pickers only
  set filter strings that are passed to the server.
- onSuggestedExerciseSelect and onCustomExerciseInput only trigger a search,
  a service call. The trim in onCustomExerciseInput uses JavaScript's full
  whitespace set, which is not modelled.
- editExercise is OpenModal(true, exercise).
- Exercises.ExercisesPage.ResetForm: the closing `exerciseForm.resetForm()`
  (exercises.page.ts:302-304), Angular's NgForm reset, is not modelled. It
  resets the template-driven controls, and through the two-way `ngModel`
  bindings it may write `null` back into the draft's fields after the
  assignments. So ResetForm, AfterResetForm and OnSaveSucceeded state the
  draft ('', '', 0, 0, now) that the method assigns, which need not be the
  draft the page holds once Angular has processed the form reset.
- An activity level outside the five named ones cannot be represented.
  calculateTDEE would give NaN for it.
- onFileSelected (FileReader), takePicture (action sheet) and the camera
  itself. The camera's answer is a parameter of OnPictureTaken.
- The remainder of updateProfile after the goal recalculation is a form
  upload to the server.
- The sign-in, sign-up and forgot-password pages, auth.php, the meals and
  search pages, and the routing modules are not part of this model.
- The profile endpoint is not part of this model. The dashboard lemmas
  assume it reports the stored `daily_calorie_goal` column.
- Home.ProfileData: a goal sent as a JSON string is not represented.

## Findings

| source | as written | input that shows it | evidently intended | confidence | as-written member | corrected member |
|---|---|---|---|---|---|---|
| src/app/exercises/exercises.page.ts:135-138 | an empty answer empties the list but does not call calculateSummary | a page showing one exercise reloads (for example after a filter change) and gets no exercises: the list is empty but totalExercises is still 1 | the totals describe the list after every load | medium, not executed | Exercises.StaleTotalsAfterEmptyLoad | Exercises.AfterExercisesLoadedRecomputing |
