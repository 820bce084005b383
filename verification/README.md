# FinCred scoring engine and dashboard logic, in Dafny

This project models the computational core of the FinCred personal-finance
app. That core is the XP engine (`client/src/lib/xpEngine.ts`) plus the list
logic of two dashboard components. It proves properties of the model.

- **XP engine** (`xp_engine.dfy`, module `XpEngine`):
  - the XP award for an activity. It is base XP × difficulty × (1 + streak/10), less the penalty, plus three bonuses, clamped at 0 and rounded;
  - the FinCred Score: a base of 300 plus a weighted blend of four ratios plus an XP-level bonus capped at 50. The sum is capped at 850 and rounded;
  - the level. It comes from a bucket-fill loop over thresholds 100, 120, 144, 172, …, where each threshold is `floor(previous × 1.2)`;
  - the progress within a level. This replays the same thresholds to find the XP used by lower levels.
- **Budget dashboard** (`budget_mastery.dfy`, module `BudgetMastery`):
  - each category's remaining amount, percent spent and healthy/warning/danger status;
  - the drag-and-drop reorder;
  - the overall totals;
  - the "left / Budget used / over budget" label.
- **Expense tracker** (`expense_tracker.dfy`, module `ExpenseTracker`):
  - the add form's guard and the prepend of the new expense;
  - delete by id;
  - the category lookup with its fallback to "Other";
  - today's total.
- **Shared pieces**:
  - `common.dfy` (module `Common`): an `Option` type for optional fields and for JavaScript's non-finite results, plus `Math.round` as floor(x + 1/2);
  - `seqs.dfy` (module `Seqs`): the JavaScript array operations the components use (`filter`, `reduce` as a left-fold sum, and the two `splice` calls of a move) over immutable sequences.

JavaScript numbers are exact `real`s here. Thresholds, levels and rounded
results are `int`s. xpEngine.ts has no state. The two components keep their
lists in `useState`, and each handler is modelled as a function from the list
before to the list after. `CalculateXPProgress` is a method so that its loop
can mirror the replay loop of `calculateXPProgress`.

Where the code and the prose around it disagree, the model follows the code:

- For any finite total, `calculateLevel` never returns 2. Any total of 100 XP or more enters the loop at level 2, and the loop always runs at least once. So 100 XP gives level 3 and 220 XP gives level 4, although the comments at `xpEngine.ts:91-93` list level 2 at 100 XP and level 3 at 220 XP. `LevelIsNeverTwo` and `LevelExamples` state this.
- The formula comment at `xpEngine.ts:17` says "× Streak". The code multiplies by `(1 + streak × 0.1)`, and the model does the same.
- The FinCred doc comment promises a score between 300 and 850. The code caps only at 850, and a negative ratio goes below 300 (`NegativeRatioScoresBelowBase`).
- In `calculateXPProgress`, `nextLevelXP` is the width of the current level's bucket, not the total at which the next level starts. `currentLevelXP` is the XP earned inside the level.

The field `allocated` of a budget category is called `allocation` here, because
`allocated` is a reserved word in Dafny.

## Model

| member | source | states |
|---|---|---|
| Common.Round | client/src/lib/xpEngine.ts:40 | `Math.round`: the result is the nearest integer, with ties going up |
| XpEngine.CalculateXP | client/src/lib/xpEngine.ts:19-41 | the award is never negative; it is 0 when core − penalty + bonuses is ≤ 0, and otherwise the nearest integer to that sum |
| XpEngine.XPMonotoneInAdjustments | client/src/lib/xpEngine.ts:24-37 | raising any bonus never lowers the award, and raising the penalty never raises it |
| XpEngine.ExplicitZero | client/src/lib/xpEngine.ts:24-27 | an omitted adjustment defaults to 0, and a given one is kept |
| XpEngine.OmittedAdjustmentsAreZero | client/src/lib/xpEngine.ts:24-27 | omitting an adjustment gives the same award as passing 0 |
| XpEngine.XPWithoutAdjustments | client/src/lib/xpEngine.ts:31-40 | with no adjustments and non-negative inputs, the award is round(baseXP·difficulty·(1 + streak/10)), and round(baseXP·difficulty) at streak 0 |
| XpEngine.XPExamples | client/src/lib/xpEngine.ts:31-40 | worked awards: 20, 30, 0 under a penalty of 25, and 20 with two bonuses of 5 |
| XpEngine.XPLevelBonus | client/src/lib/xpEngine.ts:74 | the level bonus is 5 per level up to level 10 and exactly 50 from level 10 on, so at most 50 and non-negative for a non-negative level |
| XpEngine.CalculateFinCredScore | client/src/lib/xpEngine.ts:57-83 | the score never exceeds 850; it is at least 300 for ratios in [0,1] and a non-negative level; below the cap it is the nearest integer to the weighted sum, and at or above the cap it is 850 |
| XpEngine.ScoreMonotone | client/src/lib/xpEngine.ts:69-80 | raising any ratio or the level never lowers the score |
| XpEngine.ScoreExtremes | client/src/lib/xpEngine.ts:66-82 | all-zero inputs score exactly 300; all ratios at 1 with level ≥ 10 score exactly 850 |
| XpEngine.NegativeRatioScoresBelowBase | client/src/lib/xpEngine.ts:67-82 | nothing clamps from below: a budget adherence of −1 scores 150 |
| XpEngine.NextThreshold | client/src/lib/xpEngine.ts:104 | `Math.floor(t * 1.2)` equals the integer `(6·t)/5`, and it exceeds `t` once t ≥ 5 |
| XpEngine.Threshold | client/src/lib/xpEngine.ts:98-104 | every bucket width the loop uses is at least 100 |
| XpEngine.ThresholdsIncrease | client/src/lib/xpEngine.ts:98-104 | bucket widths strictly increase: 100, 120, 144, … |
| XpEngine.CumulativeXP | client/src/lib/xpEngine.ts:124-129 | the XP that fills the first n buckets is at least 100·n |
| XpEngine.CumulativeXPIncreases | client/src/lib/xpEngine.ts:124-129 | cumulative XP strictly increases with the number of buckets |
| XpEngine.LevelLoop | client/src/lib/xpEngine.ts:102-106 | the loop never lowers the level, and it raises it whenever the remainder covers the threshold; it terminates because the remainder drops by at least 100 per pass |
| XpEngine.CalculateLevel | client/src/lib/xpEngine.ts:89-109 | the level is ≥ 1; it is 1 exactly when totalXP < 100, and ≥ 3 otherwise |
| XpEngine.LevelLoopFills | client/src/lib/xpEngine.ts:100-106 | started after n filled buckets, the loop returns 2 + k, where k ≥ n is the number of buckets totalXP fills exactly |
| XpEngine.LevelIsFilledBucketsPlusTwo | client/src/lib/xpEngine.ts:96-108 | for totalXP ≥ 100 the level is 2 + k if and only if totalXP fills exactly k buckets, and that k is ≥ 1 |
| XpEngine.LevelMonotone | client/src/lib/xpEngine.ts:96-108 | more XP never gives a lower level |
| XpEngine.LevelIsNeverTwo | client/src/lib/xpEngine.ts:91-108 | no total of XP yields level 2, contrary to the comments |
| XpEngine.LevelExamples | client/src/lib/xpEngine.ts:96-108 | levels at the boundaries: 0 and 99 give 1; 100 and 219 give 3; 220 gives 4; the widths after 100 are 120, 144 and 172 |
| XpEngine.CalculateXPProgress | client/src/lib/xpEngine.ts:114-141 | currentLevel agrees with CalculateLevel; the XP of the lower levels plus currentLevelXP is totalXP; nextLevelXP is the current bucket's width; for totalXP ≥ 0, 0 ≤ currentLevelXP < nextLevelXP and progress = currentLevelXP/nextLevelXP lies in [0,1) |
| Seqs.Filter | client/src/components/dashboard/ExpenseTracker.tsx:118 | every element `filter` returns is from the input and satisfies the predicate, every input element that satisfies it is returned, and no element occurs more often than in the input |
| Seqs.FilterCounts | client/src/components/dashboard/ExpenseTracker.tsx:118 | `filter` keeps every copy of an element the predicate accepts and no copy of one it rejects |
| Seqs.FilterConcat | client/src/components/dashboard/ExpenseTracker.tsx:118 | filtering a concatenation filters each part in order |
| Seqs.Sum | client/src/components/dashboard/BudgetMastery.tsx:109-110 | the `reduce` sum from 0 is 0 for an empty list and non-negative when every term is |
| Seqs.SumConcat | client/src/components/dashboard/BudgetMastery.tsx:109-110 | the `reduce` sum of a concatenation is the sum of the parts |
| Seqs.RemoveAt | client/src/components/dashboard/BudgetMastery.tsx:84 | `splice(i, 1)` drops exactly index i and shifts the rest down by one |
| Seqs.InsertAt | client/src/components/dashboard/BudgetMastery.tsx:85 | `splice(i, 0, x)` puts x at index i, or at the end when i is past it; the elements before that index stay put and those from it on move up by one, in order |
| Seqs.Move | client/src/components/dashboard/BudgetMastery.tsx:83-85 | a move is a permutation of the same length that puts the moved item at the destination |
| Seqs.MovePreservesOthers | client/src/components/dashboard/BudgetMastery.tsx:84-85 | after a move, the other items keep their relative order |
| Seqs.MovePreservesSum | client/src/components/dashboard/BudgetMastery.tsx:109-110 | a move does not change any sum over the list |
| BudgetMastery.PercentOf | client/src/components/dashboard/BudgetMastery.tsx:70 | a percentage exists exactly when the divisor is non-zero, and it is the nearest integer to part/whole·100 |
| BudgetMastery.StatusOf | client/src/components/dashboard/BudgetMastery.tsx:71-76 | danger iff spent/allocated > 0.9; warning iff the ratio is in (0.7, 0.9]; healthy iff it is ≤ 0.7; with a zero allocation, danger iff spent > 0 |
| BudgetMastery.StatusThresholdsWithoutDivision | client/src/components/dashboard/BudgetMastery.tsx:71-76 | for a positive allocation the three statuses are spent > 0.9·allocated, spent in (0.7·allocated, 0.9·allocated], and spent ≤ 0.7·allocated |
| BudgetMastery.Derive | client/src/components/dashboard/BudgetMastery.tsx:67-77 | a derived category keeps its data; remaining + spent = allocated; its percent and status are those of its amounts |
| BudgetMastery.DeriveAll | client/src/components/dashboard/BudgetMastery.tsx:66-78 | every category is derived in place, and the order and length are kept |
| BudgetMastery.HandleDragEnd | client/src/components/dashboard/BudgetMastery.tsx:80-87 | with no destination the list is unchanged; otherwise the result is a permutation of the same length with the dragged category at the destination |
| BudgetMastery.DragKeepsOtherOrder | client/src/components/dashboard/BudgetMastery.tsx:83-85 | the categories not dragged keep their relative order |
| BudgetMastery.DragBackRestores | client/src/components/dashboard/BudgetMastery.tsx:83-85 | dragging the category back from the destination to the source restores the list |
| BudgetMastery.OverallPercentSpent | client/src/components/dashboard/BudgetMastery.tsx:111 | the overall percentage exists iff the total allocation is non-zero, and it is then the rounded total spent / total allocated · 100 |
| BudgetMastery.TotalAllocated | client/src/components/dashboard/BudgetMastery.tsx:109 | the total allocation is 0 with no categories and non-negative when every allocation is |
| BudgetMastery.TotalSpent | client/src/components/dashboard/BudgetMastery.tsx:110 | the total spending is 0 with no categories and non-negative when every category's spending is |
| BudgetMastery.TotalsAppend | client/src/components/dashboard/BudgetMastery.tsx:109-110 | the totals add each category's allocation and spending |
| BudgetMastery.DragKeepsTotals | client/src/components/dashboard/BudgetMastery.tsx:109-111 | a reorder changes neither total nor the overall percentage |
| BudgetMastery.LabelFor | client/src/components/dashboard/BudgetMastery.tsx:195-199 | "left" iff remaining > 0, "Budget used" iff it is 0, "over budget" iff it is < 0; the amount shown is positive |
| BudgetMastery.LabelRoundTrip | client/src/components/dashboard/BudgetMastery.tsx:195-199 | the label's amount, with its sign restored, is the remaining amount |
| BudgetMastery.CategoryLabel | client/src/components/dashboard/BudgetMastery.tsx:195-199 | a category's label reads allocated − spent, and it says "over budget" iff spent > allocated |
| ExpenseTracker.HandleSubmit | client/src/components/dashboard/ExpenseTracker.tsx:80-115 | a submit is refused iff the amount, category or description is empty, and then the list is unchanged; otherwise the new expense, holding the form's fields, is at index 0 and the old list follows unchanged |
| ExpenseTracker.DeleteExpense | client/src/components/dashboard/ExpenseTracker.tsx:117-118 | no survivor carries the id, and every expense without it survives |
| ExpenseTracker.DeleteAbsentIsNoOp | client/src/components/dashboard/ExpenseTracker.tsx:118 | deleting an id that no expense carries changes nothing |
| ExpenseTracker.DeleteIdempotent | client/src/components/dashboard/ExpenseTracker.tsx:118 | deleting the same id twice is the same as deleting it once |
| ExpenseTracker.DeleteKeepsOrder | client/src/components/dashboard/ExpenseTracker.tsx:118 | deletion acts on each part of a list separately, so the survivors keep their order |
| ExpenseTracker.DeleteUndoesSubmit | client/src/components/dashboard/ExpenseTracker.tsx:94-118 | deleting the id of a just-recorded expense, if that id was fresh, gives back the previous list |
| ExpenseTracker.FindCategory | client/src/components/dashboard/ExpenseTracker.tsx:127 | `find` returns the first category with the id, and nothing iff no category has it |
| ExpenseTracker.GetCategoryInfo | client/src/components/dashboard/ExpenseTracker.tsx:126-128 | the lookup returns an entry of the table; it is the category with that id if one exists, and otherwise the "Other" entry at index 7 |
| ExpenseTracker.CategoryLookup | client/src/components/dashboard/ExpenseTracker.tsx:41-50 | the "food" id shows "Food & Dining"; any id shows its own entry or the "Other" entry |
| ExpenseTracker.TodaysTotal | client/src/components/dashboard/ExpenseTracker.tsx:138-142 | with no expense dated today, including an empty list, today's total is 0 |
| ExpenseTracker.TodaysTotalConcat | client/src/components/dashboard/ExpenseTracker.tsx:138-142 | today's total of a list is the sum of its parts' totals |
| ExpenseTracker.TodaysTotalSingle | client/src/components/dashboard/ExpenseTracker.tsx:140-141 | an expense counts with its amount iff it is dated today |
| ExpenseTracker.SubmitUpdatesTodaysTotal | client/src/components/dashboard/ExpenseTracker.tsx:103 | a recorded expense dated today adds its amount to today's total; other submits leave it unchanged |

## Left out

- IEEE-754 arithmetic is not modelled. Every number is an exact real, so float rounding in `streak * 0.1`, `spent / allocated` or `xpThreshold * 1.2` is absent. `NaN` is also absent, for example from `parseFloat` of non-numeric text. So is `-0` from `Math.round`.
- XpEngine.CalculateXPProgress: `totalXP` is a real, as in the source. The contract bounds `currentLevelXP` and `progress` only for `totalXP ≥ 0`, as the source intends. For a negative total it states level 1, width 100 and `currentLevelXP = totalXP`.
- The new expense's id `exp${Date.now()}`, the form's default date and time, and "today" in `getTodaysTotal` all come from the clock. They are parameters here (`newId`, the form's `date`/`time`, `today`).
- The parsed amount from `parseFloat` is a parameter (`parsedAmount`).
- The 1-second `setTimeout` before an expense is recorded is left out. Toasts, the dialog and submitting flags, and the form reset are also left out. Only the resulting list transformation is modelled.
- The delayed callback prepends to the `expenses` it captured when Save was pressed (ExpenseTracker.tsx:93-103), so a change to the list within that second would be overwritten. `HandleSubmit` is given the list the callback prepends to and does not model that race.
- `formatCurrency`, `toLocaleString` and the text formatting of numbers are left out. The remaining-amount label is a datatype carrying the amount, not a string.
- Icons and colours of categories are left out, as presentational, and so is `getStatusColor` (a status to CSS class lookup).
- Drag indices are natural numbers. The drag library reports indices within the list, so the source index is required to be one. Negative `splice` indices are not modelled. A destination past the end appends, as `splice` does.
- Authentication, persistence, routing and the other components are not part of this model. Their figures are fixed mock values that the engine does not compute.
