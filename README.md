# FitFuel daily ledger, modelled in Dafny

FitFuel Pro logs food items against calendar days and shows derived figures:
the day's calorie total, the protein/carbs/fat sums, a "session trend" line,
the calories left in the daily goal, and a seven-day calorie chart. All of
that logic lives in the app component (`src/App.jsx`). This project models it:

- `entries.dfy` (module `Entries`): food items and entries, the tagging of
  looked-up items with ids and the meal type, and removal by id.
- `aggregate.dfy` (module `Aggregate`): the `reduce` folds for the calorie
  total and the macros, and the trend series.
- `goal.dfy` (module `Goal`): the remaining budget and the percentage of goal.
- `store.dfy` (module `Store`): local storage as a map from day to ledger,
  with load, save and a day's stored total.
- `weekly.dfy` (module `Weekly`): the seven-day rollup loop.
- `app.dfy` (module `App`): the component's state as a class `Tracker`
  (storage, selected day, live ledger, `isLoaded` flag, meal type, goal,
  pending delete id) and its handlers, plus a client scenario.

Days are integer day numbers and every measurement is an integer. The load
and save effects are explicit methods (`Load`, `Save`) rather than
framework-scheduled callbacks. Only `Load`, and `SelectDate` through it, can
change `isLoaded`, and both only set it; nothing clears it.

Points where the code's behaviour is worth stating outright:
- the trend reducer is evidently meant to be a running total, but it plots
  each entry's own calories in stored (newest first) order; the model keeps
  what the code does and adds the corrected series (see Findings);
- the `isLoaded` flag is set on the first load and never cleared, so it does
  not hold saves back on later date changes; the model keeps this;
- a zero goal makes the percentage divide by zero, and a malformed stored
  record makes `JSON.parse` throw; the model leaves both out (see Left out).

## Model

| member | source | states |
|---|---|---|
| `Entries.TagItems` | src/App.jsx:111-115 | every looked-up item becomes one entry, in lookup order, carrying its fresh id and the current meal type |
| `Entries.RemoveId` | src/App.jsx:133 | the delete filter; its own contract only bounds the length, and its meaning is carried by `RemoveMembers`, `RemoveAbsent`, `RemoveAppend` and `RemoveAt` |
| `Entries.RemoveMembers` | src/App.jsx:133 | an entry is kept by the delete filter exactly when it was in the ledger and its id differs from the deleted one |
| `Entries.RemoveAbsent` | src/App.jsx:133 | deleting an id no entry carries leaves the ledger unchanged |
| `Entries.RemoveAppend` | src/App.jsx:133 | the filter works piecewise, so the kept entries keep their relative order |
| `Entries.RemoveAt` | src/App.jsx:131-137 | with unique ids, deleting entry k's id removes exactly position k and nothing else |
| `Entries.RemoveKeepsUnique` | src/App.jsx:133 | deletion keeps ids unique |
| `Entries.AddKeepsUnique` | src/App.jsx:111-116 | prepending entries with fresh distinct ids keeps ids unique |
| `Aggregate.Sum` | src/App.jsx:62 | the `reduce` sum of one measurement is 0 for an empty ledger and never negative when no amount is |
| `Aggregate.TotalCalories` | src/App.jsx:62 | the calorie total is 0 for an empty ledger, the entry's calories for one entry, and never negative when no entry's calories are |
| `Aggregate.SumAppend` | src/App.jsx:62 | the fold's sum of a concatenation is the sum of the parts |
| `Aggregate.SumFront` | src/App.jsx:62 | folding from the front gives the same total as head plus rest |
| `Aggregate.SumSingleton` | src/App.jsx:62 | a one-entry ledger totals that entry's amount |
| `Aggregate.SumPositive` | src/App.jsx:62 | a non-empty ledger of positive calories has a positive total |
| `Aggregate.RemoveLowersSum` | src/App.jsx:131-137 | with unique ids, deleting an entry lowers the calorie total and each macro sum by exactly its amount |
| `Aggregate.Macros` | src/App.jsx:64-70 | the combined macros fold yields, field by field, the protein, carbs and fat sums (0 for an empty ledger) |
| `Aggregate.TrendStep` | src/App.jsx:162 | one reducer step keeps the accumulator and appends one point; called with `i` equal to the accumulator's length it appends just `c` |
| `Aggregate.TrendFold` | src/App.jsx:162 | the trend reducer, reading `a[i]` past the accumulator's end, returns its input unchanged |
| `Aggregate.TrendSeries` | src/App.jsx:158-162 | the trend has one more point than the ledger has entries, starts at 0, and point k+1 is entry k's own calories |
| `Aggregate.TrendMissesEarlierEntries` | src/App.jsx:162 | with two or more positive entries the last trend point is below the day's total |
| `Aggregate.RunningFoldIsPrefixTotals` | src/App.jsx:162 | the corrected reducer (`a[i-1]`) gives at point k the total of the first k+1 entries |
| `Aggregate.RunningTotalSeries` | src/App.jsx:162 | the corrected trend starts at 0, point k is the total of the first k entries, and the last point is the day's total |
| `Goal.Remaining` | src/App.jsx:184 | the remaining budget is never negative, is at least goal minus total, equals it when the total is within the goal and is 0 otherwise |
| `Goal.PercentOfGoal` | src/App.jsx:341 | for a positive goal the percentage is 100 * total / goal rounded half up |
| `Goal.HalfOfDefaultGoal` | src/App.jsx:341 | 1250 kcal against a goal of 2500 shows 50 percent |
| `Store.LoadDay` | src/App.jsx:37-42 | a day with a record loads as that record; a day without one loads as the empty ledger |
| `Store.SaveDay` | src/App.jsx:49 | saving replaces the day's record with the given ledger and keeps every other day's record |
| `Store.LoadAfterSave` | src/App.jsx:36-51 | loading a day after saving it returns the saved ledger; other days load as before |
| `Store.SaveTwice` | src/App.jsx:49 | saving the same ledger twice leaves the same storage as saving it once |
| `Store.SaveLoaded` | src/App.jsx:36-51 | writing back a just-loaded ledger changes no day's ledger as read |
| `Store.DayTotal` | src/App.jsx:89-90 | a day's stored total is the total of its loaded ledger, 0 without a record |
| `Store.SaveKeepsValid` | src/App.jsx:49 | saving a ledger with unique ids keeps all stored ledgers' ids unique |
| `Weekly.WeeklyData` | src/App.jsx:73-94 | seven points for days today-6 to today, oldest first; the last is the live total, each earlier one the day's stored total or 0 |
| `Weekly.SaveTodayKeepsHistory` | src/App.jsx:85-91 | saving today's ledger changes none of the six earlier points |
| `App.Truthy` | src/App.jsx:132 | the `if (itemToDelete)` test: null and 0 are falsy, every other id is truthy |
| `App.Tracker.constructor` | src/App.jsx:18-30 | the first render: today selected, empty live ledger, not loaded, Breakfast, goal 2500, no pending delete |
| `App.Tracker.Load` | src/App.jsx:36-44 | the live ledger becomes the selected day's stored ledger (empty when absent) and saving is enabled |
| `App.Tracker.SelectDate` | src/App.jsx:36-44 | choosing a day makes it selected and loads its ledger |
| `App.Tracker.Save` | src/App.jsx:47-51 | once loaded, the selected day's record is fully replaced by the live ledger; before loading storage is untouched |
| `App.Tracker.AddItems` | src/App.jsx:110-116 | the live ledger becomes the tagged new items followed by the old entries in their old order |
| `App.Tracker.ConfirmDelete` | src/App.jsx:126-129 | the pending delete id is set |
| `App.Tracker.ProceedWithDelete` | src/App.jsx:131-137 | with a truthy pending id the ledger is filtered by it and the id cleared; with a falsy one nothing changes |
| `App.Tracker.SetMealType` | src/App.jsx:241 | the meal selector sets the meal type used for later additions |
| `App.Tracker.SetGoal` | src/App.jsx:335 | the goal input sets the daily goal |
| `App.Tracker.WeeklyStats` | src/App.jsx:73-96 | the rendered rollup ends with the live ledger's total, whichever day is selected, and reads earlier days from storage |
| `App.Tracker.RemainingToday` | src/App.jsx:184 | the donut's remaining slice is never negative, adds up with the total to the goal when the goal is not exceeded, and is 0 when the total reaches or passes the goal |

## Left out

- The nutrition lookup (`fetch`, the `loading` busy flag, the failure alert, clearing the query): network and asynchronous code; `AddItems` receives the lookup's item list.
- App.Tracker.AddItems: requires distinct ids that the ledger does not use; this stands for the clock-plus-random ids, which the code takes to never collide.
- App.Tracker.constructor: requires every stored day's ids to be unique; this rests on the same no-collision assumption about clock-plus-random ids, applied to the storage the app starts from.
- A lookup response that arrives after the day was changed: the code prepends it to whichever ledger is live then; the model has no in-flight requests.
- Effect scheduling: on a date change the code's save effect can run with the previous ledger under the new day's key before the load effect's update lands; the model runs load and save as separate steps.
- JSON serialisation, the `fitfuel_` key prefix and the failure of `JSON.parse` on a malformed record: storage is a map from day to ledger.
- Dates and locales: days are integer day numbers, chart labels are those day numbers instead of weekday names, and the UTC/local mismatch of `toISOString` is not modelled.
- Measurements are integers; the lookup returns floating-point values, and `toFixed` formatting is not modelled.
- Goal.PercentOfGoal: requires a positive goal; the code divides by any goal and shows Infinity or NaN for 0, and floating-point rounding error is not modelled.
- Display concerns: chart options, theme, the modal's open flag, expanded rows, the history filter and the macro bar widths.

## Findings

| source | as written | input that shows it | evidently intended | confidence | as-written member | corrected member |
|---|---|---|---|---|---|---|
| src/App.jsx:162 | the trend reducer appends `(a[i]\|\|0) + c`, but `a` has exactly `i` elements, so `a[i]` is always undefined and each point is just the entry's own calories | two entries of 100 and 200 kcal plot 0, 100, 200 | `(a[i-1]\|\|0) + c`: a running total 0, 100, 300 ending at the day's total | high; not executed | `Aggregate.TrendMissesEarlierEntries` | `Aggregate.RunningTotalSeries` |
