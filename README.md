# MAMO worker allocation, modelled in Dafny

MAMO decides how many crowd workers of each quality level to put on each
task of a crowdsourcing job so that the expected revenue is as high as
possible within a budget. This project models its core:

- **gen_difficulty**: the task difficulty sampled around the task's prior
  confidence (`Difficulty`).
- **gen_true_conf**: the two-mass Bayesian update of a task's confidence
  from the answers of the assigned workers (`Confidence`).
- **micro_optimization**: for every feasible level combination, a Monte
  Carlo estimate of the chance that the confidence reaches THRESHOLD, turned
  into an expected revenue (`Estimator`).
- **micro_greedy**: tasks served by revenue, each taking the best affordable
  combination (`Greedy`).
- **micro_mckp**: the grouped-knapsack dynamic programme over budget slots,
  then staffing the tasks of the best slot (`Mckp`).
- **macro_uniform**: every task staffed with one fixed combination, in order
  of confidence times revenue (`Uniform`).
- **macro_gte_threshold** and **macro_gte_threshold_simulate**: several
  rounds. Each round gets a share of the remaining budget, runs an allocator
  and carries on only the tasks still below THRESHOLD but above a lower bound
  (`Rounds`).

`Model` holds the shared entities. Tasks are a class, because the
allocators write `confidence` and `is_solved` into them in place. The levels
dictionary is a class, because the estimator writes `true_ratio` into it.

`Ordering` models Python's stable `sorted`. `Allocation` holds what the
three allocators share.

Randomness is explicit input:

- `Draws` supplies each task position's sampled difficulty, the uniform
  draws of the estimator's trials, and the answer indices gen_true_conf
  draws.
- gen_difficulty takes the standard-normal samples and the drawn index.

Every loop of the source is a method. Each is proved against a
specification function, and the properties are lemmas about those
functions.

The grouped-knapsack table follows the source exactly, including line 57 of
micro_mckp.py. That line writes the task into the lower slot's map in place.
`Mckp.LowerSlotLeak` gives a two-task input where this makes the chosen slot
staff combinations costing more than the budget it reports as spent.

## Model

| member | source | states |
|---|---|---|
| Model.LevelTable.Quality | micro_optimization.py:67-71 | a valid level's quality is a probability strictly between 0 and 1 |
| Model.LevelTable.Cost | micro_optimization.py:108-110 | a valid level's price per worker is not negative |
| Model.Task.Copy | macro_gte_threshold.py:51 | a deep copy carries every field of the task |
| Model.Views | micro_greedy.py:30-33 | one snapshot per task, in list order, holding the task's fields |
| Model.OwnLevelsDrawable | micro_greedy.py:46-47 | a combination over the task's own levels can be drawn from the real answers of a task with real answers at each of its own levels |
| Model.SolvedCount | micro_greedy.py:52 | the count of solved tasks never exceeds the number of tasks |
| Difficulty.FirstInRange | micro_optimization.py:30-42 | at most `cap` values are kept, and every one lies in the interval |
| Difficulty.FirstInRangeSaturated | micro_optimization.py:34-35 | once the list is full, the samples still to come change nothing (the early break) |
| Difficulty.CollectedBounds | micro_optimization.py:26-42 | every collected difficulty lies in [0,1]; the right batch has at most 50 values, all at least the prior, and comes first; the list holds at most 100 |
| Difficulty.PickAlwaysInRange | micro_optimization.py:44 | every index randint(0, 99) can draw is valid exactly when 100 values were collected |
| Difficulty.CollectInRange | micro_optimization.py:30-42 | the loop appends the in-range samples in order and stops when the list reaches its target |
| Difficulty.GenDifficulty | micro_optimization.py:12-45 | the result is the drawn entry of the collected list, or the IndexError case when the index falls beyond it; for a prior that is a probability, every difficulty returned lies in [0,1] |
| Confidence.UpdateStep | micro_optimization.py:63-71 | one loop iteration, in either branch, extends both masses by one vote |
| Confidence.MassSign | micro_optimization.py:63-71 | the masses stay non-negative, and stay positive once positive |
| Confidence.MassesPositive | micro_optimization.py:61-72 | with a prior in [0,1] the divisor at line 72 is positive |
| Confidence.Posterior | micro_optimization.py:72 | the updated confidence is a probability, and no vote leaves the prior unchanged |
| Confidence.MassConcat | micro_optimization.py:63-71 | updating with two vote lists in turn equals updating with their concatenation |
| Confidence.MassScale | micro_optimization.py:63-71 | scaling the starting mass scales the final mass |
| Confidence.PosteriorSequential | macro_gte_threshold.py:60-69 | feeding one update's confidence into the next equals one update with all the votes |
| Confidence.SamePosterior | micro_optimization.py:72 | masses equal up to a positive factor give the same confidence |
| Confidence.MassesAfterPosterior | micro_optimization.py:61-72 | continuing from an updated confidence reproduces the joint masses up to a positive factor |
| Confidence.NormalizedPrior | micro_optimization.py:72 | the confidence and its complement are the two masses scaled by one positive factor |
| Confidence.PosteriorIs | micro_optimization.py:72 | the confidence is the true mass over the total mass |
| Confidence.AnswerVotes | micro_optimization.py:63-65 | one vote per worker, carrying its level's quality |
| Confidence.GenTrueConf | micro_optimization.py:47-73 | the loop computes the posterior of the prior given the drawn real answers |
| Estimator.TrueRatioBounds | micro_optimization.py:88-91 | the true ratio lies between the quality and the difficulty, so it is a probability |
| Estimator.RatiosOverwrite | micro_optimization.py:88-91 | writing both entries leaves exactly the two true ratios, whatever the dictionary held before |
| Estimator.RowFacts | micro_optimization.py:97-103 | the inner loop admits exactly the feasible pairs of one total, by ascending level-1 count |
| Estimator.PairsUpToMembers | micro_optimization.py:96-103 | the nested loops admit exactly the feasible pairs up to a total |
| Estimator.PairsUpToOrdered | micro_optimization.py:96-103 | pairs come by total, then by level-1 count |
| Estimator.LevelPairsExact | micro_optimization.py:93-103 | the enumeration holds each feasible pair exactly once, in enumeration order |
| Estimator.LevelCombsShape | micro_optimization.py:102 | each combination is n1 level-1 workers then n2 level-2 workers of a feasible pair, and none repeats |
| Estimator.CombOfCounts | micro_optimization.py:102 | a combination has n1 + n2 workers, the first n1 of level 1 |
| Estimator.CombsOfConcat | micro_optimization.py:103 | the combinations of joined pair lists are the joined combination lists |
| Estimator.CombsUseOwnLevels | micro_optimization.py:93-103 | every enumerated combination is non-empty, and uses a level only when the task has answers of its own there |
| Estimator.EnumerateCombs | micro_optimization.py:93-103 | the two loops build exactly the enumerated combination list |
| Estimator.CombCostConcat | micro_optimization.py:108-110 | the cost of joined combinations is the sum of their costs |
| Estimator.RepeatCost | micro_optimization.py:108-110 | n workers of one level cost n times its price |
| Estimator.CombCostOf | micro_optimization.py:108-110 | a combination costs n1 times the level-1 price plus n2 times the level-2 price, never negative |
| Estimator.TrialVotes | micro_optimization.py:116-124 | worker w's simulated answer agrees exactly when its uniform draw is at most its level's true ratio |
| Estimator.TrialIsAnswerUpdate | micro_optimization.py:113-126 | a trial performs the gen_true_conf update on answers equal to its simulated ones |
| Estimator.Hits | micro_optimization.py:112-128 | at most n of the first n trials reach THRESHOLD |
| Estimator.HitsStep | micro_optimization.py:126-128 | one more trial adds one exactly when its confidence reaches THRESHOLD |
| Estimator.ScoreIs | micro_optimization.py:130-136 | a combination's result holds it, its hit count, the hits' share of the revenue and its cost |
| Estimator.ExpectedRevenueBounds | micro_optimization.py:130 | the expected revenue lies between 0 and the revenue |
| Estimator.Estimates | micro_optimization.py:93-138 | one result per enumerated combination, each non-empty and using a level only when the task has answers of its own there |
| Estimator.EstimatesDrawable | micro_greedy.py:35-47 | for a task with real answers at each of its own levels, every proposed combination can be drawn |
| Estimator.EstimatesFacts | micro_optimization.py:105-138 | results follow the enumeration; hits are at most MAX_ITERATION; the expected revenue is the hits' share of the revenue; the cost is the per-level prices times the counts |
| Estimator.AllEstimatesCosts | micro_optimization.py:108-110 | every result of every task has a non-negative cost |
| Estimator.RunTrial | micro_optimization.py:113-126 | one trial's loop yields the posterior given the trial's simulated votes |
| Estimator.ScoreCombination | micro_optimization.py:106-137 | the cost loop and the trial loop yield that combination's result |
| Estimator.MicroOptimization | micro_optimization.py:75-138 | for a difficulty in [0,1], both true ratios are written into the levels dictionary and are probabilities, and the results are the estimates of every combination |
| Ordering.InsertBy | micro_greedy.py:30 | inserting adds exactly one position and keeps the positions in range |
| Ordering.SortBy | micro_greedy.py:30 | sorting rearranges the positions without adding or losing any |
| Ordering.LeTotal | micro_greedy.py:30 | any two sort keys are comparable |
| Ordering.LeTrans | micro_greedy.py:30 | the key order is transitive |
| Ordering.InsertBySorted | micro_greedy.py:30 | inserting into a sorted list keeps it sorted |
| Ordering.SortBySorted | micro_greedy.py:30 | the sort's output is in ascending key order |
| Ordering.PermutationDistinct | micro_greedy.py:30 | a permutation of the positions lists none twice |
| Ordering.OrderByFacts | micro_greedy.py:30 | the sorted order lists every position exactly once, in ascending key order |
| Ordering.SelectPermutation | micro_greedy.py:30-31 | visiting the tasks along a permutation visits each exactly once |
| Allocation.Staffed | micro_greedy.py:46-48 | a staffed task's new confidence is a probability, and an empty combination leaves it unchanged |
| Allocation.DrawableFits | micro_optimization.py:63-65 | for a combination with a non-empty real pool at each of its levels, every drawn index lies inside its pool |
| Allocation.Decide | micro_greedy.py:46-53 | a staffed task is solved exactly when its new confidence reaches THRESHOLD; an unstaffed one keeps its confidence and is not solved |
| Allocation.ClearSolved | micro_greedy.py:27-28 | every task becomes unsolved and nothing else changes |
| Allocation.StaffTask | micro_greedy.py:46-53 | the task takes the gen_true_conf confidence and is marked solved when that reaches THRESHOLD |
| Allocation.SumsStep | micro_greedy.py:50-52 | a solved task adds its revenue and one to the running sums; an unsolved one adds nothing |
| Allocation.TallyStep | micro_greedy.py:50-52 | the running sums along the order grow by the next task's contribution |
| Allocation.SolvedRevenueBounds | micro_greedy.py:51 | the revenue sum is non-negative, and zero when nothing is solved |
| Allocation.NothingSolved | micro_mckp.py:63-64 | with no task solved, both sums are zero |
| Allocation.SolvedCountMultiset | micro_greedy.py:52 | the correct count is the number of solved flags |
| Allocation.CountAlong | micro_greedy.py:31-53 | counting along a permutation of the tasks counts the same solved tasks |
| Allocation.ProgressStep | micro_greedy.py:31-56 | serving the next task sets its verdict and leaves every other task alone |
| Allocation.ProgressDone | micro_greedy.py:31-56 | after the loop every task holds its verdict |
| Greedy.TaskOrderFacts | micro_greedy.py:30 | every task is visited once, by non-increasing revenue, with equal revenues in list order |
| Greedy.ByExpectedRevenueFacts | micro_greedy.py:36-38 | the two stable sorts rearrange the results by non-increasing expected revenue, equal estimates by non-decreasing cost, and results equal in both in enumeration order |
| Greedy.SortedMembers | micro_greedy.py:36-38 | the sort keeps exactly the results it is given |
| Greedy.FirstQualifying | micro_greedy.py:39-56 | the scan stops at the first result the budget covers with a non-zero estimate, after none qualified |
| Greedy.Choice | micro_greedy.py:39-56 | the committed result qualifies, and there is none exactly when no result qualifies |
| Greedy.ChoiceIsBest | micro_greedy.py:36-56 | the choice is the highest affordable non-zero estimate, the cheapest among equals, the first enumerated among results equal in both, and is missing only when nothing qualifies |
| Greedy.ChoiceEarliest | micro_greedy.py:36-56 | no qualifying result equal to the choice in estimate and cost comes before it in enumeration order |
| Greedy.MenusCostsNonNegative | micro_greedy.py:35 | every estimated cost is non-negative |
| Greedy.Menu | micro_greedy.py:35-38 | every combination on a task's sorted results uses only levels at which it has answers of its own |
| Greedy.MenuDrawable | micro_greedy.py:35-47 | every combination on the sorted results of a task with real answers at its own levels can be drawn |
| Greedy.MenusDrawable | micro_greedy.py:30-47 | every combination on every task's sorted results can be drawn |
| Greedy.RunStep | micro_greedy.py:31-56 | serving one more task extends the run by its verdict and choice |
| Greedy.GreedyBudget | micro_greedy.py:40-55 | the remaining budget never goes negative, and after any task it is at most what it was after every earlier one |
| Greedy.RemainingStep | micro_greedy.py:40-55 | serving one more task never adds to the budget |
| Greedy.RemainingDrains | micro_greedy.py:31-56 | what is left after more tasks is at most what was left after fewer |
| Greedy.GreedySpent | micro_greedy.py:55 | what is spent is exactly the cost of the committed choices |
| Greedy.GreedyChoiceAt | micro_greedy.py:39-56 | each task chooses against the budget the earlier tasks left, and its verdict is that of this choice |
| Greedy.VerdictsInUnit | micro_greedy.py:46-53 | every confidence is a probability, and a solved task has reached THRESHOLD |
| Greedy.ServedStep | micro_greedy.py:31-56 | one loop iteration keeps the loop state with one more task served |
| Greedy.ServedDone | micro_greedy.py:31-56 | after the loop the state is the greedy run's, with its sums |
| Greedy.ScanResults | micro_greedy.py:39-56 | the scan staffs the task with the choice and deducts its cost |
| Greedy.ServeTask | micro_greedy.py:32-56 | one task is estimated, its results sorted and scanned |
| Greedy.ServeNext | micro_greedy.py:31-56 | one loop iteration extends the loop state |
| Greedy.ServeInOrder | micro_greedy.py:31-56 | the loop leaves every task with its verdict from the greedy run, and the sums and budget of that run |
| Greedy.MicroGreedy | micro_greedy.py:8-63 | the outcome is the greedy run's; a non-negative budget stays within [0, budget]; the correct count is the number of solved tasks; confidences stay probabilities |
| Mckp.EmptyTable | micro_mckp.py:27-31 | the three per-slot lists are well formed, with one slot for each budget from 0 to `budget` |
| Mckp.RelaxEffect | micro_mckp.py:40-60 | a result that does not fit, or estimates zero, changes nothing; an improving one sets its slot from the lower slot and writes the task into both slots' maps; every other slot is unchanged |
| Mckp.FillStep | micro_mckp.py:33-60 | adding a task sweeps it into the table of the tasks before it |
| Mckp.GrowsTrans | micro_mckp.py:49-53 | slot revenues that only grow keep growing over several steps |
| Mckp.RelaxGrows | micro_mckp.py:49-53 | relaxing a slot above 0 only raises its revenue |
| Mckp.RelaxAllGrows | micro_mckp.py:39-60 | trying all of a task's results only raises revenues |
| Mckp.SweepGrows | micro_mckp.py:38-60 | sweeping a task in only raises revenues |
| Mckp.FillGrows | micro_mckp.py:27-60 | every slot's revenue stays non-negative, and slot 0 stays at zero |
| Mckp.FillZeroBudget | micro_mckp.py:38 | with budget 0 no slot is swept, so the table stays empty |
| Mckp.RelaxAllFit | micro_mckp.py:39-60 | trying drawable results keeps every map of the table sending each task to a drawable combination |
| Mckp.SweepFit | micro_mckp.py:38-60 | sweeping in a task with drawable results keeps every map drawable |
| Mckp.FillFit | micro_mckp.py:33-60 | a table built from drawable results holds only drawable combinations |
| Mckp.TableForFit | micro_mckp.py:33-60 | every map of micro_mckp's table sends each task to one of that task's own combinations, so to one its real answers can be drawn for |
| Mckp.MaxOf | micro_mckp.py:65 | `max` returns an entry that no entry exceeds |
| Mckp.FirstIndex | micro_mckp.py:65 | `index` returns the first position holding the value |
| Mckp.BestSlot | micro_mckp.py:65 | the best slot has the maximum revenue and no earlier slot reaches it |
| Mckp.BestSlotUnique | micro_mckp.py:65 | only one slot is the first of maximum revenue |
| Mckp.ChosenVerdictsFacts | micro_mckp.py:66-78 | a task missing from the chosen map keeps its confidence unsolved; a chosen one is solved exactly when its new confidence reaches THRESHOLD |
| Mckp.TalliedStep | micro_mckp.py:75-77 | the running sums grow by each solved task |
| Mckp.ZeroBudgetStaffsNothing | micro_mckp.py:38-84 | with budget 0 no task is staffed, every confidence is kept and both sums are zero |
| Mckp.LowerSlotLeak | micro_mckp.py:57-60 | line 57 leaves a task in the lower slot's map, so the best slot can staff more than its reported cost |
| Mckp.RelaxSlot | micro_mckp.py:40-60 | the three arrays hold the relaxed table |
| Mckp.RelaxResults | micro_mckp.py:39-60 | the arrays hold the table after all of a task's results are tried at one slot |
| Mckp.SweepSlots | micro_mckp.py:38-60 | the arrays hold the table after one task is swept in from the top slot down to 1 |
| Mckp.BuildTable | micro_mckp.py:27-60 | the arrays hold the table of all tasks in list order, and the levels dictionary holds the last task's true ratios |
| Mckp.BestBudget | micro_mckp.py:65 | the slot found is the first of maximum revenue |
| Mckp.StaffChosen | micro_mckp.py:66-78 | each task ends with its chosen verdict, and the sums count the solved ones |
| Mckp.PlanAndStaff | micro_mckp.py:27-84 | the table is built and the tasks of its best slot staffed |
| Mckp.MicroMckp | micro_mckp.py:9-85 | the outcome is that of the best slot; the remaining budget lies in [0, budget]; the correct count is the number of solved tasks; confidences stay probabilities |
| Uniform.UniformOrderFacts | macro_uniform.py:28-29 | every task is visited once, by non-increasing confidence times revenue, with equal values in list order |
| Uniform.UniformVerdictsFacts | macro_uniform.py:34-41 | every task gets one update with the same combination and is solved exactly when its confidence reaches THRESHOLD |
| Uniform.Prepare | macro_uniform.py:24-26 | every task becomes unsolved and records its confidence times revenue |
| Uniform.StaffedUpToStep | macro_uniform.py:30-41 | one loop iteration keeps the loop state with one more task staffed |
| Uniform.StaffedUpToDone | macro_uniform.py:30-41 | after the loop every task holds its verdict and the sums run along the order |
| Uniform.StaffNext | macro_uniform.py:30-41 | one loop iteration extends the loop state |
| Uniform.StaffInOrder | macro_uniform.py:30-41 | every task ends with its verdict, and the sums run along the order |
| Uniform.SortByExpRevenue | macro_uniform.py:28-29 | the sort yields the order by recorded expected revenue |
| Uniform.MacroUniform | macro_uniform.py:8-48 | every task is staffed once with the combination; the sums count the solved tasks in sorted order; the remaining budget is 0 |
| Rounds.Truncated | macro_gte_threshold.py:58 | `int(x / d)` is the floor quotient for non-negative x and truncates toward zero otherwise |
| Rounds.RoundBudgetBounds | macro_gte_threshold.py:58 | a round's share lies between 0 and what remains, and the last round gets all of it |
| Rounds.Allocate | macro_gte_threshold.py:60-61 | the allocator keeps a non-negative round budget's remainder in [0, budget], counts the solved tasks and keeps confidences probabilities |
| Rounds.KeptPositionsFacts | macro_gte_threshold.py:63-69 | the carried positions increase, and a position is carried exactly when its task passes the test |
| Rounds.KeptFacts | macro_gte_threshold.py:62-70 | the next round's tasks are the returned tasks at the carried positions, in returned order |
| Rounds.KeptWithin | macro_gte_threshold.py:68-69 | every carried task was returned, passes the test and has a probability as its confidence |
| Rounds.KeptComplete | macro_gte_threshold.py:68-69 | every returned task that passes the test is carried |
| Rounds.KeptDistinct | macro_gte_threshold.py:62-70 | carried tasks stay distinct, and so do their ids |
| Rounds.RegisteredFacts | macro_gte_threshold.py:52-55 | every task id is registered, and no entry starts out solved |
| Rounds.RecordedKeys | macro_gte_threshold.py:63-67 | no entry is removed, and every returned task has one |
| Rounds.RecordedFacts | macro_gte_threshold.py:63-67 | ids of no returned task keep their entries; each returned task's entry holds its confidence and solved flag |
| Rounds.RoundSettles | macro_gte_threshold.py:62-70 | a solved entry is never written again, and no solved task is carried on |
| Rounds.Collect | macro_gte_threshold.py:62-70 | the loop carries on the filtered tasks and records every returned task |
| Rounds.KeptCount | macro_gte_threshold.py:67-69 | the solved tasks and the carried tasks of a round number at most the round's tasks |
| Rounds.Carry | macro_gte_threshold.py:62-70 | the round's end leaves distinct carried tasks with probability confidences, and every returned id recorded |
| Rounds.CopyTasks | macro_gte_threshold.py:51 | the copies are fresh and distinct, and hold the same fields |
| Rounds.Register | macro_gte_threshold.py:52-55 | the dictionary is the registered one |
| Rounds.PlayRound | macro_gte_threshold.py:58-70 | carried tasks pass the test and every passing task is carried; the remainder stays in [0, round budget]; correct plus carried is at most the round's tasks |
| Rounds.AccumulatedStep | macro_gte_threshold.py:72-78 | a round's outcome added keeps the totals equal to the per-round sums and the budget draining |
| Rounds.PlayRounds | macro_gte_threshold.py:57-78 | the totals are the per-round sums, the budget drains round by round, and at most all the tasks are answered correctly |
| Rounds.Simulate | macro_gte_threshold_async.py:18-66 | one simulation reports totals that are the per-round sums, a draining budget, and at most the number of tasks correct |
| Rounds.SumPointwise | macro_gte_threshold.py:76-78 | adding two lists entry by entry adds their sums |
| Rounds.SimTotalsAreSums | macro_gte_threshold_async.py:52-58 | a simulation's totals are the sums of its per-round figures |
| Rounds.Zero | macro_gte_threshold.py:32-43 | the initial result satisfies the accumulated facts for zero simulations |
| Rounds.AccumulateSummed | macro_gte_threshold.py:76-82 | adding a simulation keeps the totals the sums of the rounds and the correct count within the tasks simulated |
| Rounds.MacroGteThreshold | macro_gte_threshold.py:45-82 | after SIMULATE_CNT simulations the totals are the per-round sums, the correct count is at most SIMULATE_CNT times the tasks, and a non-negative budget drains |

## Left out

- Reading JSON files, command-line arguments, `print`, and the `__main__` blocks are not modelled.
- The multiprocessing driver `macro_gte_threshold_async` (the pool over simulations) is left out. Only its per-simulation function is modelled.
- The final division by SIMULATE_CNT in macro_gte_threshold.py:84-93 is left out. The model proves facts about the summed figures, before averaging.
- Random numbers are inputs. Their distributions (normal samples, uniform draws, uniform indices) are not modelled.
- Floating point is modelled as exact reals. Rounding is not modelled.
- Only the two levels the estimator names (`level1`, `level2`) exist.
- The allocator `micro_cp` is not part of this model. The rounds model dispatches to greedy or MCKP only.
- Python's stable `sorted` is modelled as an insertion sort on keys that end in the original position. This gives the same order.
- The task dictionary of the rounds is modelled as a map from id to confidence and solved flag. The deep-copied task records it holds are not kept.
- `int()` of a division is modelled as integer truncation toward zero. Budgets are integers.
- Mckp.MicroMckp requires a non-negative budget. With a negative budget the source's revenue list is empty, and `max` at line 65 raises an error, which is not modelled.
- In the rounds, `total_correct` is a float in the source. It is an integer per simulation here, and a real once summed over simulations.
- gen_true_conf fails when a staffed combination uses a level whose real-answer pool is empty, because `randint(0, -1)` raises; the caller's `tasks_answer_dict[task_id]` fails when the staffed task has no entry. The model requires neither for a staffed combination (`Drawable`) and requires each pick from a non-empty pool to land inside it (`PicksValid`). These error paths are not modelled.
- Estimator.MicroOptimization: takes the difficulty as an input in [0,1] rather than calling gen_difficulty. Difficulty.GenDifficulty proves that every difficulty it returns lies in [0,1]. Its IndexError case (fewer than 100 values collected) is not carried into the allocators.
- Greedy.MicroGreedy: requires real answers at each level where a task has answers of its own (`Answerable`), for every task. The source needs this only for the tasks it actually staffs, which depends on the draws and the budget.
- Greedy.ServeInOrder: requires `Answerable` for every task, as Greedy.MicroGreedy does.
- Greedy.ServeNext: requires `Answerable` for every task, as Greedy.MicroGreedy does.
- Greedy.ServeTask: requires `Answerable` for the task even when the budget lets no combination through.
- Mckp.MicroMckp: requires `Answerable` for every task. The source needs it only for the tasks in the best slot's map.
- Mckp.PlanAndStaff: requires `Answerable` for every task, as Mckp.MicroMckp does.
- Rounds.Allocate: requires `Answerable` for every task, as the allocators do.
- Rounds.PlayRound: requires `Answerable` for every task of the round, as the allocators do.
- Rounds.PlayRounds: requires `Answerable` for every task, and picks inside the pools and difficulties in [0,1] for every round.
- Rounds.Simulate: requires `Answerable` for every task, as the allocators do.
- Rounds.MacroGteThreshold: requires `Answerable` for every task, as the allocators do.
- Rounds.Allocate: states what both allocators promise, not each allocator's full outcome. That outcome is stated by Greedy.MicroGreedy and Mckp.MicroMckp.
- Rounds.PlayRound: states the carried tasks as a set of the returned tasks passing the test, not their order. Rounds.Collect states the order.
- Rounds.PlayRounds: says nothing about the `true_ratio` entries left in the levels dictionary.
- Rounds.Simulate: says nothing about the `true_ratio` entries left in the levels dictionary.
- Rounds.MacroGteThreshold: says nothing about the `true_ratio` entries left in the levels dictionary.
