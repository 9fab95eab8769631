# Verification of the operational planning engine

A Dafny model of the engine that turns a small producer's orders into production requirements,
surplus allocations, ingredient and purchased-product reservations and readiness, and of the
transactions that change them. Quantities are integer micro-units (six decimals), unit costs
millionths, money cents, dates day numbers; ids are naturals with their order. `today` is a
parameter. A refused transaction has no state: it is rolled back.

Four layers:

1. **Allocation kernels.** `Sorting`, `Fefo`, `SurplusAllocation`, `SurplusTheorems`: the
   first-expiring-first-out allocator, its loop, and a min-cut proof that it is optimal on every
   deadline prefix; `Deadlines`, `SurplusPriority`: who is served first and from which lot, on the
   fields of lines and lots. `FefoPinning`, `SurplusStability`: holding any lines fixed and allocating again
   changes nothing. `ProductionOutput`: one finished run's output shared in deadline order
   (`OutputPriority` on the fields).
   `CostApportionment`, `ProductionCost`: the two-pass largest-remainder split of a run's cost.
   `DecimalArithmetic`, `InventoryCosting`: fifty-digit decimals, whole batches, rescaling, weighted
   averages and their drift. `CompletionPlan`: sufficiency and cost rows of a completion.
   `CostRecords`: what inventory events and completions put on record.
2. **Recalculation.** `PlanningState` (tables), `Recalculation` (the rebuild of one product's
   projection as a function), `Rebuilding` (the rebuild as the loops over dictionaries that compute
   that function), `PlanningInvariant` and the `Recalculation*` theorems (what a rebuilt projection
   satisfies, what survives it, and that doing it twice changes nothing). `RequirementNumbers`,
   `RebuildPriority`: what it leaves on requirements, links and surplus rows, field by field.
3. **The state machine.** `PlanningSystem` (several products, readiness, the invariant `Inv`),
   `Lifecycle` (every transaction as a function from state to state or refusal), `OperationalStore`
   (the same transactions as methods of one object whose tables they reassign, with rollback), and
   the theorems: every transaction keeps `Inv`, releases never conflict nor demote, Ready orders
   complete, `ReadyOrders` says exactly when satisfied orders are Ready, runs in production are
   protected over any sequence of transactions, Preview agrees with Confirm and with confirmed edits.
   `ReadinessMeaning`, `WarningMeaning`, `RunEffects`, `TransactionEffects`: what being Ready and being
   warned mean, and what every committed transaction does to every table, on quantities, dates and
   statuses. Here transactions happen one after the other; what that leaves out is the fourth layer.
4. **Concurrency.** `LockProtocol`: discover, lock, check protection, look again, commit, with runs
   started and ended in between, under every interleaving. `ProtectionRace`: exactly when a protection
   check that is not repeated misses a run, and that repeating it is enough; `OvertakenSteps`: what an
   Edit or a Cancel that missed one does to the planning state. `LockOrder`: the rows every workflow asks
   for, one global order, exactly which lists follow it, and no wait cycle among workflows that do.

What the projection must satisfy is stated twice: `ComputeFor` follows the code, and `Clean`
(in `PlanningInvariant`) is the independent specification it is proved to establish: every live line
linked exactly once, keys unique, demand the sum of the links, the least whole batches for what is
still to make, one reservation per requirement and ingredient, no lot and no line promised twice.

## Where the code and its documentation differ

- `production_output_allocation` asks its caller to pass only lines of Confirmed and Ready orders.
  Finish passes the lines of every order it locked without looking at the status again, so an order
  canceled between discovery and lock is still served (`FinishRecipients`). The model follows the
  code; the exact condition under which the promise holds is proved.
- Active-run protection. A line behind a run in production must not change until the run ends
  (`operational_recalculation_service.py:365-383`), and the module comment at
  `order_completion_service.py:19-23` names the race that threatens it: Start locks its product and no
  order. Only Complete reads the protection again under its product locks (line 191). Edit
  (`order_lifecycle_service.py:670`) and Cancel (line 963) read it once, before, so a run started in
  between is missed: the Edit deletes the line behind it, and its links and surplus rows with it, or the
  Cancel closes the order behind it. `ProtectionRace` gives both interleavings, proves that the promise
  is kept exactly when no such Start commits between the check and the product locks, and that
  repeating the check restores it. The theorems of the state machine (`Inv`, `RunKept`) treat an Edit or
  a Cancel as one step that reads and writes the same state, which is the case in which nothing is
  missed; `OvertakenSteps` says exactly when a Cancel or an Edit that missed a run still keeps `Inv`.
- Rescaling a line rounds twice (fifty digits, then six decimals); the result is the half-up value
  except for some exact ties, which go down by one micro-unit: exactly those whose stored ratio is low by
  so much that the product falls more than half a step of its fiftieth digit short of the tie
  (`DecimalArithmetic.RescaleIsHalfUpIff`; `TieCanGoDown` is such a tie). Lowering the package quantity
  and putting it back restores the underlying quantity exactly when the way down was off by less than
  half of the lower quantity, or by half and the same condition decides for it
  (`DecimalArithmetic.SmallerAndBackRestoresIff`).
- The cost split: a later recipient of more gets fewer cents exactly when the two tie in micro-units and
  the leftover cents run out between them, and then one cent fewer
  (`ProductionCost.LaterHeavierGetsLessIff`).
- A purchased cost is rounded twice and a surplus cost once; the first is a cent higher on exactly the
  products named by `CompletionPlan.RoundingTwiceGainsIff`.
- Ready implies satisfied in every reachable state, not the converse: the first stock of a purchased
  product evaluates no order, and neither does a confirmed edit that affects no demand, even when it
  turns off the requirement of a custom item. `ReadyOrders.StepKeepsReadyIff` says of every step whether
  it keeps satisfied orders Ready.

## Model

| member | source | states |
|---|---|---|
| Fefo.GreedyIsFeasible | backend/app/domain/surplus_allocation.py:117-163 | the greedy plan exceeds no need and no lot and uses only eligible lots |
| Fefo.AnyPlanBelowAnyCut | backend/app/domain/surplus_allocation.py:117-163 | no feasible plan covers more than any cut of needs and nested lot capacities |
| Fefo.GreedyMeetsACut | backend/app/domain/surplus_allocation.py:117-163 | the greedy plan covers exactly some cut, for every prefix of lines |
| Fefo.GreedyIsOptimal | backend/app/domain/surplus_allocation.py:117-163 | with nested eligibility no feasible plan covers more on any prefix of lines in deadline order |
| SurplusAllocation.AllocateSurplus | backend/app/domain/surplus_allocation.py:105-163 | the nested loops over remaining-quantity maps, for lots and items in any order, compute the greedy allocation of the sorted inputs; `SurplusPriority` says what that sorting gives whom |
| SurplusTheorems.EligibilityIsNested | backend/app/domain/surplus_allocation.py:69-104 | in priority order a later line's eligible lots are among an earlier line's, because the sort keys and the expiry test agree |
| SurplusTheorems.AllocationIsSound | backend/app/domain/surplus_allocation.py:105-163 | every row is positive, eligible and for a known line and lot; no lot gives more than it has free, no line gets more than it needs |
| SurplusTheorems.AllocationIsOptimal | backend/app/domain/surplus_allocation.py:69-163 | for one product's lots and lines, no allocation respecting capacity, need and eligibility covers more of any first `n` lines than the allocator does |
| SurplusTheorems.AllocationIgnoresInputOrder | backend/app/domain/surplus_allocation.py:69-163 | the result depends only on which lots and lines there are |
| SurplusPriority.NoLineIsPassedOver | backend/app/domain/surplus_allocation.py:69-163 | by dates, times and ids alone: if a line draws from a lot that a line due earlier could have used, the earlier line's need is met in full |
| SurplusPriority.NoLotIsSkipped | backend/app/domain/surplus_allocation.py:81-163 | by expiry, production date and id alone: if a line draws from a lot, every sooner lot that could serve it is emptied by it and the lines before it |
| SurplusPriority.NothingIsHeldBack | backend/app/domain/surplus_allocation.py:93-163 | a line whose need is not met leaves nothing in any lot that could serve it |
| FefoPinning.PinningKeepsThePlan | backend/app/domain/surplus_allocation.py:117-163 | reducing needs and capacities by what any set of lines holds leaves every other line's row of the plan as it was |
| SurplusStability.PinnedLinesChangeNothing | backend/app/services/operational_recalculation_service.py:918-1042 | allocating again with any subset of lines' rows held fixed gives exactly the other lines' rows, lot by lot |
| SurplusStability.SpentItemsChangeNothing | backend/app/services/operational_recalculation_service.py:1010-1042 | leaving out lines with nothing open does not change the allocation |
| ProductionOutput.AllocateProductionOutput | backend/app/domain/production_output_allocation.py:95-138 | the single-pool walk gives line `i` the lesser of its need and what earlier needs leave, and returns the excess |
| ProductionOutput.LineGetsItsShare | backend/app/domain/production_output_allocation.py:66-138 | each line's total is min(need, max(0, output - earlier needs)), counted once |
| ProductionOutput.PrefixGetsAllItCan | backend/app/domain/production_output_allocation.py:95-138 | the first `n` lines together get the output or their whole need, whichever is less |
| ProductionOutput.EarlierLinesFirst | backend/app/domain/production_output_allocation.py:83-138 | a line that gets anything is preceded only by lines served in full |
| OutputPriority.LineGetsWhatIsLeft | backend/app/domain/production_output_allocation.py:66-138 | for lines in any order each gets what it wants, up to what the lines due before it, by date, time and id, leave of the output |
| OutputPriority.RestIsOver | backend/app/domain/production_output_allocation.py:95-138 | what is over is exactly what the output exceeds all wants by |
| OutputPriority.EarlierLinesAreServedInFull | backend/app/domain/production_output_allocation.py:83-138 | for lines in any order: a line that gets anything is preceded, by date, time and id, only by lines served in full |
| ProductionOutput.OutputIsConserved | backend/app/domain/production_output_allocation.py:95-138 | allocations plus excess equal the output; a positive excess means every need was met |
| ProductionOutput.SharingIsSound | backend/app/domain/production_output_allocation.py:66-138 | for unsorted lines of any product: positive rows within need, strangers get nothing, nothing is lost |
| CostApportionment.HamiltonApportion | backend/app/domain/production_cost_apportionment.py:64-88 | the two loops and the sort compute floors plus one unit for the largest remainders, ties to the earlier recipient |
| CostApportionment.HamiltonSumsExactly | backend/app/domain/production_cost_apportionment.py:64-88 | one pass sums exactly to its target |
| CostApportionment.HamiltonKeepsQuota | backend/app/domain/production_cost_apportionment.py:64-88 | every share is strictly within one of its exact quota; a zero weight gets zero |
| CostApportionment.HamiltonIsFair | backend/app/domain/production_cost_apportionment.py:64-88 | an earlier recipient with at least the weight never gets less |
| CostApportionment.HeavierNeverGetsLess | backend/app/domain/production_cost_apportionment.py:64-88 | within one pass a strictly heavier recipient never gets less, in either order |
| CostApportionment.EqualWeightsDifferIff | backend/app/domain/production_cost_apportionment.py:64-88 | two recipients of equal weight differ exactly when the leftover units run out between them, the earlier then getting one more |
| ProductionCost.ApportionProductionCost | backend/app/domain/production_cost_apportionment.py:106-175 | both passes, the recipient map and the lot's share, with each error branch exactly when its condition holds |
| ProductionCost.CentsSumExactly | backend/app/domain/production_cost_apportionment.py:140-175 | end to end the cents sum to the half-up rounded total |
| ProductionCost.CentsAreProportional | backend/app/domain/production_cost_apportionment.py:140-175 | every share is less than 1.5001 cents from its exact proportion |
| ProductionCost.CentsAreFair | backend/app/domain/production_cost_apportionment.py:140-175 | across both passes an earlier recipient with at least as much quantity never gets less |
| ProductionCost.NoQuantityNoCents | backend/app/domain/production_cost_apportionment.py:64-175 | a recipient of no quantity pays nothing |
| ProductionCost.LaterHeavierGetsLessIff | backend/app/domain/production_cost_apportionment.py:64-175 | across both passes a later recipient of more gets less iff the micro-unit shares tie and the leftover cents run out between the two, and then by exactly one cent |
| ProductionCost.ClearlyHeavierNeverGetsLess | backend/app/domain/production_cost_apportionment.py:64-175 | a recipient heavier by at least two micro-units' worth of the cost never gets less, wherever it stands |
| ProductionCost.HeavierButLaterMayGetLess | backend/app/domain/production_cost_apportionment.py:64-175 | a concrete recipient of more, later in order, that gets less |
| ProductionCost.FinishBooksTheWholeCost | backend/app/services/production_run_service.py:846-946 | for Finish's own recipients the weights add up to the output, so the mismatch error is unreachable, and line cents plus the lot's cents are the rounded run cost |
| DecimalArithmetic.CeilingIsExact | backend/app/domain/recipe_scaling.py:59-69 | a fifty-digit quotient followed by the ceiling is the exact ceiling, for every operand of NUMERIC(18,6) size |
| DecimalArithmetic.QuantizingIsExact | backend/app/domain/inventory_costing.py:35-85 | a fifty-digit quotient followed by half-up at six decimals is the exact half-up value |
| DecimalArithmetic.PlanIsLeastCover | backend/app/domain/recipe_scaling.py:41-69 | the plan has the fewest batches covering the demand, output minus demand is the excess, the excess is below one yield; both error cases exactly |
| DecimalArithmetic.RescaleIsNearest | backend/app/domain/order_pricing.py:135-169 | both roundings together leave a representable result within half a micro-unit of the exact proportion |
| DecimalArithmetic.RescaleIsHalfUp | backend/app/domain/order_pricing.py:135-169 | rescaling is the exact half-up value, except that an exact tie may go down by one; the next row says exactly when |
| DecimalArithmetic.RescaleIsHalfUpIff | backend/app/domain/order_pricing.py:135-169 | for all inputs: one micro-unit below the half-up value iff the product is an exact half `h / 2` and the ratio's rounding error, times the new quantity, exceeds half a step of that tie's fiftieth digit; exact otherwise |
| DecimalArithmetic.ReachesIff | backend/app/domain/order_pricing.py:135-169 | a fifty-digit quotient reaches a whole number off the edge of fifty digits exactly from half a step of its fiftieth digit below it |
| DecimalArithmetic.TieGoesUpUnlessRatioIsLow | backend/app/domain/order_pricing.py:135-169 | in particular an exact or a rounded-up ratio takes every tie up |
| DecimalArithmetic.ShortRatioTakesTiesUp | backend/app/domain/order_pricing.py:135-169 | and so does every ratio with at most seven decimals |
| DecimalArithmetic.LargerAndBackRestores | backend/app/domain/order_pricing.py:135-169 | raising the package quantity and putting it back restores the stored underlying quantity exactly |
| DecimalArithmetic.SmallerAndBackRestoresIff | backend/app/domain/order_pricing.py:135-169 | lowering the package quantity and putting it back restores the underlying quantity iff the way down was off by less than half of the lower quantity, or by exactly half and the ratio of the way back is too low (too high by half) or not (too low by half) |
| DecimalArithmetic.ExactAndBackRestores | backend/app/domain/order_pricing.py:135-169 | in particular whenever the lowered quantity is exact |
| DecimalArithmetic.SmallerAndBackMayLose | backend/app/domain/order_pricing.py:135-169 | a concrete change: two micro-units in three packages become one in one and come back as three |
| DecimalArithmetic.TieCanGoDown | backend/app/domain/order_pricing.py:135-169 | a concrete tie that the double rounding takes down |
| InventoryCosting.AverageIsExact | backend/app/domain/inventory_costing.py:47-85 | for all representable inputs the stored average is the exact weighted average rounded half up once |
| InventoryCosting.BlendStaysBetween | backend/app/domain/inventory_costing.py:47-85 | a blended average lies between the old average and the new unit cost; from no stock it is the new cost |
| InventoryCosting.BlendKeepsValue | backend/app/domain/inventory_costing.py:47-85 | one restock moves quantity times average by at most half a micro-unit times the new quantity |
| InventoryCosting.AverageStaysWithin | backend/app/services/ingredient_inventory_service.py:201-285 | over any run of restocks and adjustments the average stays in the interval of its start and the recorded costs |
| InventoryCosting.DriftIsBounded | backend/app/services/ingredient_inventory_service.py:209-235 | over a restock-only run from positive stock, value drifts by at most half a micro-unit times the sum of the running quantities |
| InventoryCosting.RunKeepsConsistency | backend/app/services/purchased_inventory_service.py:398-541 | over any run of events the row's quantity is the sum of its transactions and, where it must be, never negative |
| InventoryCosting.StockRow.RecordInitialBalance | backend/app/services/ingredient_inventory_service.py:126-198 | the first transaction, or the exact refusal, with the whole new row |
| InventoryCosting.StockRow.RestockRow | backend/app/services/purchased_inventory_service.py:398-444 | a restock or the exact refusal: new quantity, new average, latest cost and one ledger row |
| InventoryCosting.StockRow.AdjustRow | backend/app/services/ingredient_inventory_service.py:255-285 | an adjustment moves quantity only; refused when out of range, or below zero where that is forbidden |
| CostRecords.EventIsRecorded | backend/app/services/purchased_inventory_service.py:398-541 | an event is accepted iff its cost and balance can be stored and the balance may be negative or is not; it then adds one ledger entry with quantity, unit cost and nearest total cost, and sets physical, average and latest cost as spelled out; otherwise nothing changes |
| CompletionPlan.FindShort | backend/app/domain/order_completion.py:175-237 | the failures are exactly the sources short of their summed withdrawals, in id order, with both figures; a missing row is no stock |
| CompletionPlan.PriceAll | backend/app/domain/order_completion.py:265-318 | one cost row per withdrawal and the summed deductions, or the first cost that cannot be stored; the lookup never misses once stock covers |
| CompletionPlan.BuildCompletionPlan | backend/app/domain/order_completion.py:240-341 | a plan exists iff stock covers every product and lot and every cost fits; it then holds exactly the right rows and totals; otherwise the failures are exactly the short sources, or the first line, in planning order, whose cost cannot be stored |
| CostRecords.PlanIsRecorded | backend/app/domain/order_completion.py:240-341 | one cost row per withdrawal, by line, lot and row, at its source's unit cost, with cents the nearest amount after one rounding or two; one packaging row per line; a custom row for each line whose cost is known, zero included |
| CompletionPlan.PlanIgnoresInputOrder | backend/app/domain/order_completion.py:240-341 | the plan, down to the order of its rows, depends only on which facts were gathered, not on their order |
| CompletionPlan.ReportIgnoresInputOrder | backend/app/domain/order_completion.py:175-237 | so does the failure report |
| CompletionPlan.Deduct | backend/app/services/order_completion_service.py:438-502 | each deduction leaves its own row, nothing else moves, no deducted row goes below zero |
| CompletionPlan.AmountsAreClose | backend/app/domain/order_completion.py:268-318 | purchased cents are within half a cent and half a millionth of the exact cost, surplus cents within half a cent |
| CompletionPlan.RoundingTwiceGainsIff | backend/app/domain/order_completion.py:268-318 | the two-step purchased amount exceeds the one-step surplus amount iff the product, modulo a cent, is in the last half-millionth below half a cent, and then by exactly one cent |
| CompletionPlan.TwiceRoundedMayDiffer | backend/app/domain/order_completion.py:268-318 | a concrete cost on which the two roundings gain a cent |
| CompletionRefinement.PlannerChecksWhatTheStepChecks | backend/app/services/order_completion_service.py:272-429 | on the facts gathered for an order the planner finds stock sufficient iff the transaction's own check does |
| CompletionRefinement.ReadyOrdersAreCovered | backend/app/services/order_completion_service.py:272-429 | in every state the invariant allows, a Ready order's plan has no stock failure, however many lines share a product or lot |
| CompletionRefinement.PlanIsTheStep | backend/app/services/order_completion_service.py:438-502 | applying an exact plan gives the balances of the completion step |
| Rebuilding.ResolvePin | backend/app/services/operational_recalculation_service.py:629-662 | a linked line keeps its requirement's revision, any other takes the current one |
| Rebuilding.TotalsByKey | backend/app/domain/demand_aggregation.py:37-50 | one pass over the lines gives each group's demand, finished output and kept surplus; the groups are exactly the lines' keys |
| Rebuilding.BuildRequirements | backend/app/services/operational_recalculation_service.py:1110-1370 | group by group: surplus, what is still to make, the whole-batch plan, under fresh ids; `RequirementNumbers` says what those numbers are |
| Rebuilding.BuildClaims | backend/app/services/operational_recalculation_service.py:1424-1485 | one reservation per requirement and ingredient with a positive need |
| Rebuilding.BuildRows | backend/app/services/operational_recalculation_service.py:1044-1066 | new surplus rows and clones of kept rows, each under its line's new requirement |
| Rebuilding.Rebuild | backend/app/services/operational_recalculation_service.py:785-1528 | the loops over dictionaries, the allocator and the checks together compute the rebuild function, refusals included; `RequirementNumbers` and `RebuildPriority` say field by field what it leaves |
| RecalculationTheorems.NoKeyIsMissing | backend/app/services/operational_recalculation_service.py:942-1066 | the dictionary lookups of kept rows and allocations never miss |
| RecalculationTheorems.RebuildIsClean | backend/app/services/operational_recalculation_service.py:785-1528 | whatever the world did since, a rebuild that goes through establishes the whole specification `Clean` |
| RecalculationTheorems.ProtectedPartStays | backend/app/services/operational_recalculation_service.py:365-383 | a rebuild leaves every requirement behind a run in production, its links and its surplus rows unchanged |
| RecalculationTheorems.ReadyLinesKeepSurplus | backend/app/services/operational_recalculation_service.py:386-430 | a Ready order's line keeps at least the surplus it had |
| RecalculationTheorems.LinkedDemandNeverConflicts | backend/app/services/operational_recalculation_service.py:851-894 | if every line to rebuild is still properly linked, the date conflict with a run cannot arise |
| RequirementNumbers.RecalculationSetsTheNumbers | backend/app/services/operational_recalculation_service.py:1110-1528 | a successful recalculation leaves on every rebuildable requirement: demand the sum of its links, what is still to make after surplus and output, the fewest whole batches for that with output and excess, and for each ingredient of its revision exactly those batches' worth reserved |
| RebuildPriority.EarlierLinesHaveEnough | backend/app/services/operational_recalculation_service.py:918-1042 | if a recalculation promises a Confirmed order's line a lot that a line due earlier, by the orders' dates and times, could use, the earlier line has its whole quantity |
| RebuildPriority.SoonerLotsAreAllPromised | backend/app/services/operational_recalculation_service.py:967-1042 | and every usable lot that expires sooner, or is older, is promised to its last unit |
| RebuildPriority.NothingUsableStaysIdle | backend/app/services/operational_recalculation_service.py:967-1042 | a waiting line left short leaves no usable lot with anything unpromised |
| RebuildPriority.NewPromisesAreUsable | backend/app/services/operational_recalculation_service.py:967-1042 | a Confirmed order's line is promised only reusable lots of its product that are good today and on its date |
| RebuildPriority.LinesKeepTheirRecipe | backend/app/services/operational_recalculation_service.py:629-662 | every waiting line is linked, with its quantity and date, under the recipe revision it was linked to before, or the current one if it had none |
| RebuildPriority.ReadyOrdersKeepTheirLots | backend/app/services/operational_recalculation_service.py:1044-1066 | a Ready order keeps its surplus rows lot by lot, except on reopened lots |
| RecalculationTwice.RecalculatingAgainChangesNothing | backend/app/services/operational_recalculation_service.py:785-1528 | a second rebuild, even after promotions, has the same keys, numbers, links and reservations and the same quantity for every line and lot |
| PlanningSystem.RecalculateMany | backend/app/services/order_lifecycle_service.py:369-375 | recalculating a list of products makes every product clean and leaves the others alone |
| WorldChanges.EvaluationOrderIsIrrelevant | backend/app/services/readiness_service.py:117-156 | evaluating one order and then others is evaluating them together: satisfaction reads no status |
| ReadinessMeaning.EvaluationIsExact | backend/app/services/readiness_service.py:81-156 | an evaluated Confirmed or Ready order ends Ready iff it has lines and each is covered (output and surplus make its quantity; stock covers what is reserved of its product; its custom item is cleared), else Confirmed; nothing else changes |
| ReadinessMeaning.SettlingIsExact | backend/app/services/order_lifecycle_service.py:510-556 | recalculating products and evaluating orders changes those products' projections and those orders' statuses, by the same test on the result, and nothing else |
| TransactionEffects.StepIsExact | backend/app/services/order_lifecycle_service.py:440-1089 | every committed transaction of the state machine writes exactly what its specification spells out on the fields of every table, and leaves the rest |
| TransactionEffects.CompleteIsExact | backend/app/services/order_completion_service.py:127-228 | a committed Complete lowers each stock row by the order's quantities of the product and each lot by what the order's lines were promised of it, closes the order, replans, and touches nothing else |
| TransactionEffects.EditIsExact | backend/app/services/order_lifecycle_service.py:599-795 | a committed Edit leaves exactly the submitted header and lines and clears no custom item; it replans unless header and lines are unchanged and none was touched |
| WarningMeaning.WarningsAre | backend/app/services/order_lifecycle_service.py:1019-1089 | a warning is given iff the time is missing, a requirement outside production has no recipe, or reservations of a product or ingredient exceed its balance by exactly the quantity named |
| WarningMeaning.ConfirmWarns | backend/app/services/order_lifecycle_service.py:440-562 | a committed Confirm leaves no such warning unacknowledged, and only such a warning makes it ask |
| WarningMeaning.EditWarns | backend/app/services/order_lifecycle_service.py:599-795 | neither does a committed Edit that replans |
| LifecycleTheorems.ConfirmKeepsInv | backend/app/services/order_lifecycle_service.py:440-562 | Confirm keeps the invariant and never hits a missing key |
| LifecycleTheorems.EditKeepsInv | backend/app/services/order_lifecycle_service.py:599-795 | a confirmed edit, demand-affecting or not, keeps the invariant, when its protection check still holds where it writes (see `ProtectionRace` for when it does not) |
| LifecycleTheorems.SaveDraftKeepsInv | backend/app/services/order_service.py:935-1077 | creating or editing a Draft keeps the invariant |
| LifecycleTheorems.CancelKeepsInv | backend/app/services/order_lifecycle_service.py:910-1016 | Cancel keeps the invariant, when its protection check still holds where it writes (see `ProtectionRace`) |
| LifecycleTheorems.SetManualKeepsInv | backend/app/services/order_lifecycle_service.py:1189-1250 | setting or clearing manual fulfillment keeps the invariant, without recalculation |
| SupplyTheorems.StartKeepsInv | backend/app/services/production_run_service.py:199-450 | Start keeps the invariant: the source requirement becomes protected and has one run |
| RunEffects.StartPlansItsCount | backend/app/services/production_run_service.py:199-450 | Start commits iff its count, the seller's or else the fewest batches that make what remains, can be started; the new run then plans that count times the revision's quantity of each ingredient, and nothing else changes |
| SupplyTheorems.FinishKeepsInv | backend/app/services/production_run_service.py:675-970 | Finish keeps the invariant, whatever the output, the overrides and the locked orders |
| RunEffects.FinishIsExact | backend/app/services/production_run_service.py:675-970 | a committed Finish: outputs added plus the new lot make the output; a lot exists iff the output exceeds what the served lines lack and then holds exactly the rest, as recorded and with one ledger entry; each line gains what it lacks up to what lines due before it leave; each planned ingredient falls by its override or its plan, the others stay; the run ends; the rest is replanning |
| SupplyTheorems.CancelRunKeepsInv | backend/app/services/production_run_service.py:504-609 | canceling a run keeps the invariant |
| SupplyTheorems.MoveStockKeepsInv | backend/app/services/purchased_inventory_service.py:307-541 | restock and adjustment of purchased stock keep the invariant |
| SupplyTheorems.FirstStockKeepsInv | backend/app/services/purchased_inventory_service.py:342-395 | the first stock keeps it without evaluating anyone |
| SupplyTheorems.CreateLotKeepsInv | backend/app/services/surplus_service.py:195-257 | creating a surplus lot by hand keeps the invariant |
| SupplyTheorems.ReduceLotKeepsInv | backend/app/services/surplus_service.py:324-517 | reducing a lot keeps the invariant, reopening only that lot's promises, acknowledged when a locked order is demoted or a line loses surplus; its own checks never fail |
| SupplyTheorems.QuietReductionTakesNothing | backend/app/services/surplus_service.py:419-475 | a reduction that needed no acknowledgment leaves every line of every order at least the surplus it had and demotes nobody |
| CompletionTheorems.ReservationsAlwaysMatch | backend/app/services/order_completion_service.py:318-350 | under the invariant a live order's purchased reservations are exactly its demand |
| CompletionTheorems.SatisfiedIsSufficient | backend/app/services/order_completion_service.py:272-429 | a satisfied live order is never short of stock or lots |
| CompletionTheorems.CompleteKeepsInv | backend/app/services/order_completion_service.py:127-228 | Complete keeps the invariant and its post-conditions never fail |
| LifecycleGuarantees.CancelReleasesSafely | backend/app/services/order_lifecycle_service.py:910-1016 | Cancel never meets a date conflict and demotes no other Ready order |
| LifecycleGuarantees.CancelRunReleasesSafely | backend/app/services/production_run_service.py:504-609 | canceling a run never meets a date conflict and demotes no Ready order |
| LifecycleGuarantees.FinishReleasesSafely | backend/app/services/production_run_service.py:675-970 | Finish never meets a date conflict and demotes no Ready order |
| LifecycleGuarantees.CompleteReleasesSafely | backend/app/services/order_completion_service.py:586-605 | Complete never meets a date conflict and demotes no other Ready order |
| LifecycleGuarantees.ReadyOrdersComplete | backend/app/services/order_completion_service.py:127-228 | a Ready order with no line behind a run, its competitors locked, completes; only a value too large for its column can refuse it |
| PlanningRuns.StepKeepsInv | backend/app/services/order_completion_service.py:608-704 | every transaction, taken as one step, keeps the invariant and none fails its own post-conditions or a dictionary lookup |
| PlanningRuns.Always | backend/app/services/readiness_service.py:60-156 | the invariant holds after any sequence of such steps, committed or refused, from an empty database over any catalog |
| RunProtection.StepKeepsRun | backend/app/services/operational_recalculation_service.py:365-449 | no transaction taken as one step, but its own Finish or Cancel, touches a run in production, its requirement, links or surplus rows |
| RunProtection.RunIsProtected | backend/app/services/production_run_service.py:239-247 | over any sequence of such steps the run, its source requirement, linked lines and surplus rows stay as they were |
| OvertakenSteps.UncheckedCancelKeepsInvIff | backend/app/services/order_lifecycle_service.py:956-1016 | a Cancel that writes without its protection check, as one overtaken by a Start does, keeps the invariant iff no line of the order is behind a run |
| OvertakenSteps.UncheckedEditKeepsInvIff | backend/app/services/order_lifecycle_service.py:663-795 | an Edit that writes without its protection check, deleted lines taking their links and surplus rows along, keeps the invariant iff every line behind a run that stays keeps its product, quantity and date and every requirement behind a run keeps a line |
| OvertakenSteps.CheckLeavesRunsWhole | backend/app/services/order_lifecycle_service.py:233-271 | the protection check asks for more than that: what it lets pass leaves runs whole |
| RunProtection.SupplyIsNeverOverpromised | backend/app/services/order_completion_service.py:636-649 | in every reachable state no lot is promised beyond its quantity and no line beyond max(0, underlying - completed) |
| RunProtection.ReadyMeansSatisfied | backend/app/services/readiness_service.py:81-156 | in every reachable state a Ready order has lines; each produced line's output and surplus make at least its quantity, stock covers all that is reserved of each purchased product, and each required custom item is cleared |
| RunProtection.ReservationsAreTheDemand | backend/app/services/operational_recalculation_service.py:708-782 | in every reachable state a purchased product is reserved once for each line of a Confirmed or Ready order, in its quantity, and for nothing else |
| ReadyOrders.StepKeepsReadyIff | backend/app/services/readiness_service.py:117-156 | from a legal state whose satisfied live orders are all Ready, a step leads to another such state iff it is not a first stock covering a waiting order, nor a quiet edit satisfying its own order |
| ReadyOrders.AlwaysReady | backend/app/services/readiness_service.py:60-156 | as long as no step is one of those, every satisfied live order is Ready in every reachable state |
| ReadyOrders.FirstStockKeepsReadyIff | backend/app/services/purchased_inventory_service.py:342-395 | the first stock keeps it iff no Confirmed order with a line of the product has its other lines satisfied while the quantity covers all that is reserved |
| ReadyOrders.QuietEditKeepsReadyIff | backend/app/services/order_lifecycle_service.py:172-230 | an edit that affects no demand keeps it iff not all of the product lines are satisfied and every custom item still required is cleared |
| ReadyOrders.FirstStockLeavesSatisfiedConfirmed | backend/app/services/purchased_inventory_service.py:342-395 | a concrete satisfied order that stays Confirmed after a first stock |
| ReadyOrders.QuietEditLeavesSatisfiedConfirmed | backend/app/services/order_lifecycle_service.py:172-206 | a concrete satisfied order that stays Confirmed after its custom item stopped being required |
| RunProtection.BalancesAreTheirLedgers | backend/app/services/purchased_inventory_service.py:398-541 | in every reachable state every ingredient, purchased product and lot balance is the sum of its ledger, and the latter two are not negative |
| RunProtection.EveryLineIsLinkedOnce | backend/app/services/operational_recalculation_service.py:1371-1392 | in every reachable state each live produced line is linked to exactly one requirement of its product, with its own quantity and date, and keys are unique |
| RunProtection.RequirementsMeetTheirLines | backend/app/services/operational_recalculation_service.py:1110-1528 | in every reachable state each rebuildable requirement has the fewest whole batches for its links' demand less surplus and finished output, with their output and excess, and reserves exactly those batches' worth of each ingredient |
| RunProtection.RowsStayWithTheirProduct | backend/app/services/operational_recalculation_service.py:386-430 | a live line's surplus rows are all in its own product's projection |
| PreviewTheorems.ComputeForgetsOrder | backend/app/services/operational_recalculation_service.py:785-1528 | the order in which lines are read does not matter to a rebuild, ids aside; if it fails, it fails for the same reason |
| PreviewTheorems.ProjectedIsPersisted | backend/app/services/order_preview_service.py:438-559 | for one product the zero-write projected pass ends as the persisted pass does: the same numbers under other ids, or the same failure |
| PreviewAgreement.ShortagesAgree | backend/app/services/order_preview_service.py:151-182 | excluding all superseded reservations and adding every product's candidates gives the shortage the persisted reservations give |
| PreviewAgreement.SavingAgrees | backend/app/services/order_preview_service.py:250-622 | over several products sharing ingredients, the preview's warning set is the one found after saving and recalculating in sequence |
| PreviewAgreement.FailsAsProjected | backend/app/services/order_lifecycle_service.py:369-375 | the sequential persisted recalculation stops at the product whose projected pass is the first to fail, for the same reason, and goes through iff none does |
| PreviewAgreement.PreviewAgreesWithConfirm | backend/app/services/order_lifecycle_service.py:1019-1089 | Confirm is refused with the first failure of the projected passes over the saved Draft if one fails, and otherwise succeeds iff what Preview showed was acknowledged |
| PreviewAgreement.PreviewAgreesWithEdit | backend/app/services/order_lifecycle_service.py:599-795 | the same for a demand-affecting confirmed edit of saved lines that passed its own checks |
| FinishRecipients.OnlyLiveOrdersServedIff | backend/app/services/production_run_service.py:848-868 | Finish serves only Confirmed and Ready orders, for every output, iff no locked order that stopped being live has an unmet line of the product |
| FinishRecipients.LiveLocksServeLive | backend/app/services/production_run_service.py:716-738 | in particular when every locked order is live |
| FinishRecipients.CanceledOrderMayBeServed | backend/app/services/production_run_service.py:848-868 | a concrete legal state in which a canceled order's line gets output |
| LockProtocol.AlwaysSafe | backend/app/services/order_lifecycle_service.py:62-89 | in every interleaving, runs started and ended in between, no row is locked twice, what a transaction read under lock and verified is still so, and a run behind a line it would touch was started since its protection check |
| LockProtocol.NoOrderJoinsUnderVerification | backend/app/services/order_lifecycle_service.py:500-509 | from its second look to its commit a transaction that recalculates holds every order that is live for its products, however stale discovery was |
| LockProtocol.NothingMovesUnderVerification | backend/app/services/purchased_inventory_service.py:87-104 | no other transaction changes a row a verified transaction holds, the set of orders competing for its products, or the requirements and runs of those products |
| LockProtocol.CriticalSectionsAreApart | backend/app/services/production_run_service.py:716-738 | two transactions past verification share no product and no order |
| LockProtocol.DiscoveryAloneIsNotEnough | backend/app/services/purchased_inventory_service.py:65-104 | a concrete interleaving with an empty first discovery that only the second look stops |
| ProtectionRace.SparedIffNothingMissed | backend/app/services/order_lifecycle_service.py:663-724 | in every interleaving, from the protection check to the commit: every line behind a run would be spared iff no run behind a line the commit touches was started since the check |
| ProtectionRace.StartedSinceTheCheck | backend/app/services/production_run_service.py:219-247 | what counts as started since the check: exactly the Starts other transactions commit after it |
| ProtectionRace.NoStartUnderProductLocks | backend/app/services/production_run_service.py:219-247 | once the transaction holds its products no such Start can commit any more |
| ProtectionRace.RecheckHoldsUntilCommit | backend/app/services/order_completion_service.py:179-191 | reading the protection again under the product locks, as Complete does, spares every protected line up to the commit, in every interleaving |
| ProtectionRace.CommitKeepsPromisesIff | backend/app/db/models/production.py:158-200 | a commit leaves every requirement behind a run its links, all still on their terms, iff it spares the lines behind runs; deleting a line deletes its links |
| ProtectionRace.PromisesKeptIffNothingMissed | backend/app/services/order_lifecycle_service.py:956-970 | for the workflows as written: the commit keeps what active runs were promised iff no such Start came between check and product locks |
| ProtectionRace.AlwaysProper | backend/app/services/operational_recalculation_service.py:365-383 | every reachable state has every requirement linked only to lines of live orders on their terms, as long as no commit missed a run |
| ProtectionRace.RepeatingTheCheckRestoresIt | backend/app/services/order_completion_service.py:188-191 | if Edit and Cancel repeated the check as Complete does, that would hold in every interleaving |
| ProtectionRace.EditCanLoseARace | backend/app/services/order_lifecycle_service.py:663-760 | a concrete legal interleaving in which an Edit deletes the line behind a run just started and leaves its requirement without a line |
| ProtectionRace.CancelCanLoseARace | backend/app/services/order_lifecycle_service.py:956-1016 | a concrete legal interleaving in which a Cancel closes the order behind a run just started |
| ProtectionRace.TheRecheckStopsThem | backend/app/services/order_completion_service.py:188-191 | a second read under the product locks would have stopped both |
| LockOrder.NoWaitCycle | backend/app/services/order_lifecycle_service.py:272-366 | however workflows that each follow their own list, read off any state, are interleaved, every group of transactions has one that waits for no other of the group, as long as no Finish re-takes its ingredients out of order |
| LockOrder.SomeoneCanGoOn | backend/app/services/order_lifecycle_service.py:272-366 | of the open transactions one waits for nothing or gets what it waits for |
| LockOrder.EveryWorkflowIsLegal | backend/app/services/order_lifecycle_service.py:272-366 | from every state the invariant allows, the rows Confirm, Edit, Cancel, Complete, Start, run Cancel, Finish, drafts, stock, surplus and recipe changes ask for, in the order of the code, each stand above all asked for before or are held already |
| LockOrder.WorkflowIsLegalIff | backend/app/services/order_lifecycle_service.py:272-366 | in any state whatever: a workflow asks in order iff it is not a Finish that would re-take its ingredients out of order |
| LockOrder.WorkflowClimbs | backend/app/services/order_service.py:157-290 | every workflow but Finish asks for strictly higher rows, customer, products and options of an edit included |
| LockOrder.RunIngredientsAreLocked | backend/app/services/operational_recalculation_service.py:452-490 | a run's ingredients are among those its product's closure locks, because its source requirement still has a pinned line |
| LockOrder.FinishIsLegalIff | backend/app/services/production_run_service.py:740-774 | in any state, Finish asks in order iff each ingredient of its plan is among those its closure locked, or no lot and no stock row came before it and every ingredient locked is below it |
| LockOrder.StrandedFinishCanDeadlock | backend/app/services/production_run_service.py:740-774 | the condition is needed: a Finish whose run lost its last line, and with it the pin, and a Start of another product can wait for each other |
| OperationalStore.Store.RecalculateProductClosure | backend/app/services/operational_recalculation_service.py:665-782 | produced or purchased, the method replaces exactly this product's projection as the rebuild says, or refuses and changes nothing; what the rebuild leaves is in `RequirementNumbers` and `RebuildPriority` |
| OperationalStore.Store.EvaluateReadiness | backend/app/services/readiness_service.py:81-156 | walks the lines and promotes or demotes one live order by the test `ReadinessMeaning.EvaluationIsExact` spells out; every other order and table is unchanged |
| OperationalStore.Store.EvaluateLocked | backend/app/services/order_lifecycle_service.py:547-556 | evaluating the locked orders one by one, in any order, is evaluating them all |
| OperationalStore.Store.WarningsFor | backend/app/services/order_lifecycle_service.py:1019-1089 | the collected warnings are exactly the missing recipes, purchased shortages and combined ingredient shortages |
| OperationalStore.Store.ConfirmOrder | backend/app/services/order_lifecycle_service.py:440-562 | commits exactly the confirmed state or rolls back with the exact refusal; the object's invariant holds after |
| OperationalStore.Store.UpdateConfirmedOrder | backend/app/services/order_lifecycle_service.py:599-795 | the same for a confirmed edit |
| OperationalStore.Store.SaveDraftOrder | backend/app/services/order_service.py:935-1077 | the same for a Draft |
| OperationalStore.Store.CancelOrder | backend/app/services/order_lifecycle_service.py:910-1016 | the same for Cancel |
| OperationalStore.Store.SetManualFulfillment | backend/app/services/order_lifecycle_service.py:1189-1250 | the same for manual fulfillment |
| OperationalStore.Store.CompleteOrder | backend/app/services/order_completion_service.py:127-228 | the same for Complete, through the planner: revalidate, plan, deduct, write the ledger, drop the order's rows, recalculate, check |
| OperationalStore.Store.StartProduction | backend/app/services/production_run_service.py:199-450 | the same for Start; what it plans is in `RunEffects.StartPlansItsCount` |
| OperationalStore.Store.FinishProduction | backend/app/services/production_run_service.py:675-970 | the same for Finish: consume, end the run, share the output, put the excess in a lot, recalculate; what that leaves is in `RunEffects.FinishIsExact` |
| OperationalStore.Store.CancelProductionRun | backend/app/services/production_run_service.py:504-609 | the same for canceling a run |
| OperationalStore.Store.MovePurchasedStock | backend/app/services/purchased_inventory_service.py:307-541 | the same for restock and adjustment of stocked products |
| OperationalStore.Store.CreatePurchasedStock | backend/app/services/purchased_inventory_service.py:342-395 | the same for the first stock |
| OperationalStore.Store.MoveIngredientStock | backend/app/services/ingredient_inventory_service.py:201-285 | the same for an ingredient movement |
| OperationalStore.Store.CreateSurplus | backend/app/services/surplus_service.py:195-257 | the same for a lot created by hand |
| OperationalStore.Store.ReduceSurplus | backend/app/services/surplus_service.py:324-517 | the same for a lot reduced by hand |

## Left out

- DecimalArithmetic.SmallerAndBackRestoresIff: a lowered quantity that rounds to zero is refused when the order is saved (`backend/app/services/order_service.py:389-390`), so the way back from zero is arithmetic only.
- Routes, schemas, authentication, mail, logging, migrations, the frontend, analytics, exports, dashboards and the shopping list: plumbing or plain queries.
- Object-relational mapping, autoflush, implicit update and foreign-key locks, optimistic version columns and tenant scoping: one business, explicit row locks, atomic commit and rollback only.
- Time zones, daylight-saving checks, suggested start times, workload minutes, labor and estimated costs: they feed nothing the invariant speaks about.
- Unit conversion: canonical ingredient quantities per batch are given by the revision.
- Warning texts and fingerprint hashes: a warning is its kind, its subject and its quantity.
- Growth of the catalog: products and recipe revisions are fixed along a run except for the current revision; deleting a Draft and migrating retained lines to a new revision are not steps.
- The order id on surplus rows and links: it is derived from the line.
- Quantities that round to zero and per-row overflow guards inside a rebuild are one check on the finished rows; the range guards on run quantities and on adjusted purchased and ingredient balances are modelled, those on a completion's costs are in the planner.
- The rejection of a completion whose cost rows already exist, and the cost rows themselves, are not part of the state machine; they are proved about the planner.
- Deleting a line cascades to its projection rows in the database. `LockProtocol` has the cascade; in the state machine an edit that deletes a line behind a run is refused, and the rows of any other deleted line go when the same step rebuilds the product.
- Preview's combined shortages for lines that are not saved yet: their synthetic ids can break ties differently.
- Rebuilding.Rebuild: per-row guards are one check on the finished rows, and workload, labor and cost figures are left out; the store reads the demand lines in id order; the service reads them in query order, which `PreviewTheorems.ComputeForgetsOrder` shows does not matter.
- OperationalStore.Store.StartProduction: estimated costs and their guards; the ranges of the batch count, the planned output and the planned ingredient quantities are modelled.
- OperationalStore.Store.FinishProduction: costs and their guards and the choice of cost basis are in `ProductionCost`; the store moves quantities only.
- OperationalStore.Store.MovePurchasedStock: average costs are in `InventoryCosting.StockRow`; the store moves quantities only.
- LifecycleTheorems.EditKeepsInv: an Edit is one step; a Start between its protection check and its product locks is in `ProtectionRace`.
- LifecycleTheorems.CancelKeepsInv: a Cancel is one step; a Start between its protection check and its product locks is in `ProtectionRace`.
- PlanningRuns.StepKeepsInv: steps are whole transactions, so the protection check of Edit and Cancel reads the state they write.
- PlanningRuns.Always: sequences of whole transactions; interleavings are in `LockProtocol` and `ProtectionRace`.
- RunProtection.StepKeepsRun: steps are whole transactions; an Edit overtaken by a Start can delete the line behind the run (`ProtectionRace.EditCanLoseARace`).
- RunProtection.RunIsProtected: sequences of whole transactions, for the same reason.
- LockOrder.RunIngredientsAreLocked: the pinned line is there under the invariant; a run overtaken by an Edit may have lost it, and then `LockOrder.FinishIsLegalIff` and `StrandedFinishCanDeadlock` say what Finish risks.
- LockOrder.EveryWorkflowIsLegal: the part of a list after a refusal is never asked for; key-share locks taken by foreign keys are not modelled.
- OperationalStore.Store.UpdateConfirmedOrder: one method call is one step; the interleavings of its protection check are in `ProtectionRace`.
- OperationalStore.Store.CancelOrder: one method call is one step; the interleavings of its protection check are in `ProtectionRace`.
- OperationalStore.Store.CompleteOrder: cost rows are planned and checked by `CompletionPlan` and not stored.
- OperationalStore.Store.CreatePurchasedStock: the initial cost and its guards are in `InventoryCosting.StockRow`; the store records the quantity only.
- OperationalStore.Store.MoveIngredientStock: average costs and their guards are in `InventoryCosting.StockRow`; the store moves quantities only.
- LockProtocol.AlwaysSafe: an attempt that is refused at its second look rolls back and may begin again; the bound on retries is not modelled.
